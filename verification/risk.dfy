/** The transaction risk assessment service (backend/risk_assessment_api.py):
    scam keywords in the description, the amount and address risk tables,
    the summed base score, its cap at 100 and the low/medium/high
    classification with the suggested escrow period. */
module Risk {
  import opened Base
  import opened Text

  /** `SCAM_KEYWORDS`, in the list's order. */
  const ScamKeywords: seq<string> := [
    "urgent", "紧急", "立即", "马上", "快速", "guaranteed", "保证", "100%",
    "investment", "投资", "返利", "回报", "profit", "利润", "赚钱",
    "lottery", "彩票", "中奖", "prize", "奖品", "gift", "礼物",
    "inheritance", "遗产", "tax", "税", "fee", "费用", "transfer", "转账",
    "bitcoin", "crypto", "加密货币", "虚拟币", "数字货币",
    "loan", "贷款", "credit", "信用", "debt", "债务"]

  /** The keywords, in list order, whose lower case occurs in `lowered`. */
  function MatchingKeywords(keywords: seq<string>, lowered: string): seq<string>
  {
    if keywords == [] then []
    else
      var last := keywords[|keywords| - 1];
      MatchingKeywords(keywords[..|keywords| - 1], lowered)
      + (if Contains(lowered, Lower(last)) then [last] else [])
  }

  /** A keyword is reported exactly when it is in the list and its lower
      case occurs in the text; no more are reported than there are keywords. */
  lemma {:induction false} MatchingKeywordsMembers(keywords: seq<string>, lowered: string)
    ensures forall k :: k in MatchingKeywords(keywords, lowered) <==> k in keywords && Contains(lowered, Lower(k))
    ensures |MatchingKeywords(keywords, lowered)| <= |keywords|
  {
    if keywords != [] {
      var init := keywords[..|keywords| - 1];
      MatchingKeywordsMembers(init, lowered);
      assert keywords == init + [keywords[|keywords| - 1]];
    }
  }

  /** No non-empty keyword occurs in the empty text. */
  lemma {:induction false} NothingMatchesEmpty(keywords: seq<string>)
    requires forall i :: 0 <= i < |keywords| ==> keywords[i] != ""
    ensures MatchingKeywords(keywords, "") == []
  {
    if keywords != [] {
      NothingMatchesEmpty(keywords[..|keywords| - 1]);
      assert |Lower(keywords[|keywords| - 1])| > 0;
    }
  }

  /** The loop of `detect_scam_keywords` over any keyword list. */
  method CollectMatches(keywords: seq<string>, lowered: string) returns (found: seq<string>)
    ensures found == MatchingKeywords(keywords, lowered)
  {
    found := [];
    for i := 0 to |keywords|
      invariant found == MatchingKeywords(keywords[..i], lowered)
    {
      var keyword := keywords[i];
      assert keywords[..i + 1][..i] == keywords[..i];
      if Contains(lowered, Lower(keyword)) {
        found := found + [keyword];
      }
    }
    assert keywords[..|keywords|] == keywords;
  }

  /** `detect_scam_keywords`: the scam keywords, in list order, whose lower
      case occurs in the lower-cased text; none for an empty text. */
  method DetectScamKeywords(text: string) returns (found: seq<string>)
    ensures found == MatchingKeywords(ScamKeywords, Lower(text))
    ensures text == "" ==> found == []
  {
    if text == "" {
      NothingMatchesEmpty(ScamKeywords);
      return [];
    }
    found := CollectMatches(ScamKeywords, Lower(text));
  }

  // ---------------------------------------------------------------------
  // Amount and address tables

  /** The `amount` field as `float()` reads it: a number, or text that does
      not parse. */
  datatype Amount = Number(value: real) | Unparsable

  datatype Rated = Rated(score: int, reason: string)

  /** `analyze_amount_risk`. */
  function AmountRisk(amount: Amount): (r: Rated)
    ensures amount.Unparsable? ==> r == Rated(50, "金额格式错误")
    ensures amount.Number? && amount.value <= 0.0 ==> r.score == 100
    ensures amount.Number? && amount.value > 0.0 ==> r.score == 10 || r.score == 20 || r.score == 40 || r.score == 70
  {
    match amount
    case Unparsable => Rated(50, "金额格式错误")
    case Number(x) =>
      if x <= 0.0 then Rated(100, "金额无效")
      else if x < 100.0 then Rated(10, "小额交易")
      else if x < 1000.0 then Rated(20, "中等金额")
      else if x < 10000.0 then Rated(40, "较大金额")
      else Rated(70, "大额交易，需要特别注意")
  }

  /** Among valid (positive) amounts, a larger amount never rates lower. */
  lemma AmountRiskMonotone(x: real, y: real)
    requires 0.0 < x <= y
    ensures AmountRisk(Number(x)).score <= AmountRisk(Number(y)).score
  {
  }

  predicate IsHexDigit(c: char)
  {
    '0' <= c <= '9' || 'a' <= c <= 'f' || 'A' <= c <= 'F'
  }

  /** At least 40 hex digits start at index `from`. */
  predicate HexRunFrom(a: string, from: nat)
  {
    from + 40 <= |a| && forall i :: from <= i < from + 40 ==> IsHexDigit(a[i])
  }

  /** `re.match(r'^(0x|cfx:)[a-fA-F0-9]{40,}', a)`: the match is anchored at
      the start only, so anything may follow the forty hex digits. */
  predicate AddressPatternMatches(a: string)
  {
    (|a| >= 2 && a[..2] == "0x" && HexRunFrom(a, 2))
    || (|a| >= 4 && a[..4] == "cfx:" && HexRunFrom(a, 4))
  }

  predicate StartsWith(s: string, prefix: string)
  {
    |prefix| <= |s| && s[..|prefix|] == prefix
  }

  /** `analyze_address_risk`. */
  function AddressRisk(address: string): (r: Rated)
    ensures r.score == 10 || r.score == 30 || r.score == 50 || r.score == 60
  {
    if address == "" then Rated(30, "地址为空")
    else if !AddressPatternMatches(address) then Rated(60, "地址格式可疑")
    else if StartsWith(address, "0x000") || StartsWith(address, "cfx:000") then Rated(50, "可能是新地址")
    else Rated(10, "地址格式正常")
  }

  /** The address table case by case: empty rates 30, off-pattern 60, a
      matching address with a zero-led body 50, any other matching one 10. */
  lemma AddressRiskTable(address: string)
    ensures AddressRisk(address).score == 30 <==> address == ""
    ensures AddressRisk(address).score == 60 <==> address != "" && !AddressPatternMatches(address)
    ensures AddressRisk(address).score == 50 <==>
      (AddressPatternMatches(address) && (StartsWith(address, "0x000") || StartsWith(address, "cfx:000")))
    ensures AddressRisk(address).score == 10 <==>
      (AddressPatternMatches(address) && !StartsWith(address, "0x000") && !StartsWith(address, "cfx:000"))
  {
    if address == "" {
      assert !AddressPatternMatches(address);
    }
  }

  // ---------------------------------------------------------------------
  // The assessment

  /** One line of `risk_reasons`. */
  datatype Factor =
    | AmountFactor(reason: string)
    | KeywordFactor(keywords: seq<string>)
    | BuyerAddressFactor(reason: string)
    | SellerAddressFactor(reason: string)
    | ShortDescription
    | NoFactor
    | AiFactor(analysis: string)
  {
    /** The text the service sends for this line. */
    function Text(): string
    {
      match this
      case AmountFactor(reason) => "金额风险: " + reason
      case KeywordFactor(keywords) => "检测到可疑关键词: " + Join(keywords, ", ")
      case BuyerAddressFactor(reason) => "买家地址: " + reason
      case SellerAddressFactor(reason) => "卖家地址: " + reason
      case ShortDescription => "交易描述过于简单"
      case NoFactor => "未发现明显风险因素"
      case AiFactor(analysis) => "AI 分析: " + analysis
    }
  }

  datatype Level = LowRisk | MediumRisk | HighRisk

  datatype Classification = Classification(
    level: Level,
    levelText: string,
    recommendation: string,
    shouldContinue: bool,
    escrowDays: nat)

  datatype Assessment = Assessment(score: int, classification: Classification, reasons: seq<Factor>)

  /** What the service stores when the AI call raises. */
  const AiUnavailable: string := "AI 分析暂时不可用"

  /** The keyword contribution: 15 per keyword, at most 50. */
  function KeywordScore(n: nat): (s: nat)
    ensures s <= 50 && (n > 0 ==> s >= 15)
  {
    if n * 15 < 50 then n * 15 else 50
  }

  /** An address adds half its score, and only when that score exceeds 30. */
  function AddressContribution(address: string): real
  {
    var r := AddressRisk(address);
    if r.score > 30 then r.score as real * 0.5 else 0.0
  }

  predicate ShortText(description: string)
  {
    description == "" || |description| < 10
  }

  /** `base_score` after the four rule steps. */
  function BaseScore(amount: Amount, description: string, buyer: string, seller: string): (b: real)
    ensures 0.0 <= b <= 230.0
  {
    AmountRisk(amount).score as real
    + KeywordScore(|MatchingKeywords(ScamKeywords, Lower(description))|) as real
    + AddressContribution(buyer) + AddressContribution(seller)
    + (if ShortText(description) then 20.0 else 0.0)
  }

  /** `min(int(base_score), 100)`. */
  function FinalScore(base: real): (s: int)
    requires base >= 0.0
    ensures 0 <= s <= 100
  {
    var n := Trunc(base);
    if n < 100 then n else 100
  }

  /** The level table of `assess_risk`. */
  function Classify(score: int): (c: Classification)
    ensures c.shouldContinue <==> score < 60
    ensures c.level == LowRisk <==> score < 30
    ensures c.level == HighRisk <==> score >= 60
    ensures c.escrowDays == 3 || c.escrowDays == 7 || c.escrowDays == 14
  {
    if score < 30 then Classification(LowRisk, "低风险", "建议继续交易", true, 3)
    else if score < 60 then Classification(MediumRisk, "中风险", "建议谨慎交易，延长托管时间", true, 7)
    else Classification(HighRisk, "高风险", "不建议继续交易，存在较大风险", false, 14)
  }

  /** A higher score never shortens the suggested escrow period. */
  lemma EscrowDaysMonotone(s: int, t: int)
    requires s <= t
    ensures Classify(s).escrowDays <= Classify(t).escrowDays
  {
  }

  // The reason each rule step adds, if any.

  function AmountFactors(amount: Amount): (r: seq<Factor>)
    ensures |r| <= 1 && forall f :: f in r ==> f.AmountFactor?
  {
    if AmountRisk(amount).score > 30 then [AmountFactor(AmountRisk(amount).reason)] else []
  }

  function KeywordFactors(description: string): (r: seq<Factor>)
    ensures |r| <= 1 && forall f :: f in r ==> f.KeywordFactor?
  {
    var keywords := MatchingKeywords(ScamKeywords, Lower(description));
    if keywords != [] then [KeywordFactor(Take(keywords, 3))] else []
  }

  function BuyerFactors(buyer: string): (r: seq<Factor>)
    ensures |r| <= 1 && forall f :: f in r ==> f.BuyerAddressFactor?
  {
    if AddressRisk(buyer).score > 30 then [BuyerAddressFactor(AddressRisk(buyer).reason)] else []
  }

  function SellerFactors(seller: string): (r: seq<Factor>)
    ensures |r| <= 1 && forall f :: f in r ==> f.SellerAddressFactor?
  {
    if AddressRisk(seller).score > 30 then [SellerAddressFactor(AddressRisk(seller).reason)] else []
  }

  function DescriptionFactors(description: string): (r: seq<Factor>)
    ensures |r| <= 1 && forall f :: f in r ==> f.ShortDescription?
  {
    if ShortText(description) then [ShortDescription] else []
  }

  /** The reasons of steps 3 and 4: the two addresses and the description. */
  function LaterFactors(description: string, buyer: string, seller: string): (r: seq<Factor>)
    ensures forall f :: f in r ==> f.BuyerAddressFactor? || f.SellerAddressFactor? || f.ShortDescription?
    ensures ShortText(description) <==> r != [] && r[|r| - 1] == ShortDescription
  {
    BuyerFactors(buyer) + SellerFactors(seller) + DescriptionFactors(description)
  }

  /** The rule-based reasons, before the default line and the AI line. */
  function RuleFactors(amount: Amount, description: string, buyer: string, seller: string): seq<Factor>
  {
    AmountFactors(amount) + KeywordFactors(description) + LaterFactors(description, buyer, seller)
  }

  /** The AI line is added unless the analysis is empty or the unavailable notice. */
  predicate ShowsAi(ai: string)
  {
    ai != "" && ai != AiUnavailable
  }

  /** `risk_reasons` in full. */
  function Reasons(amount: Amount, description: string, buyer: string, seller: string, ai: string): seq<Factor>
  {
    var rules := RuleFactors(amount, description, buyer, seller);
    (if rules == [] then [NoFactor] else rules) + (if ShowsAi(ai) then [AiFactor(ai)] else [])
  }

  /** The reasons are never empty, and the default line appears exactly
      when no rule step added a reason. */
  lemma ReasonsNeverEmpty(amount: Amount, description: string, buyer: string, seller: string, ai: string)
    ensures |Reasons(amount, description, buyer, seller, ai)| >= 1
    ensures NoFactor in Reasons(amount, description, buyer, seller, ai)
      <==> RuleFactors(amount, description, buyer, seller) == []
  {
    var rules := RuleFactors(amount, description, buyer, seller);
    assert NoFactor !in rules;
  }

  /** The amount line, when there is one, comes first, and appears exactly
      when the amount scores above 30; the short-description line, when there
      is one, is the last rule-based reason, and appears exactly when the
      description is short. */
  lemma ReasonsFollowRules(amount: Amount, description: string, buyer: string, seller: string, ai: string)
    ensures AmountRisk(amount).score > 30 <==> Reasons(amount, description, buyer, seller, ai)[0].AmountFactor?
    ensures ShortText(description) <==>
      (RuleFactors(amount, description, buyer, seller) != []
       && RuleFactors(amount, description, buyer, seller)[|RuleFactors(amount, description, buyer, seller)| - 1] == ShortDescription)
  {
    var a, k, l := AmountFactors(amount), KeywordFactors(description), LaterFactors(description, buyer, seller);
    var rules := RuleFactors(amount, description, buyer, seller);
    if rules != [] {
      var first, last := rules[0], rules[|rules| - 1];
      assert first in a || first in k || first in l;
      if l == [] {
        assert last in a || last in k;
      } else {
        assert last == l[|l| - 1];
      }
    }
  }

  /** Every rule-based reason comes from one of the five rule steps. */
  lemma RuleFactorsKinds(amount: Amount, description: string, buyer: string, seller: string)
    ensures forall f :: f in RuleFactors(amount, description, buyer, seller) ==>
      f.AmountFactor? || f.KeywordFactor? || f.BuyerAddressFactor? || f.SellerAddressFactor? || f.ShortDescription?
  {
    var a, k, l := AmountFactors(amount), KeywordFactors(description), LaterFactors(description, buyer, seller);
    forall f: Factor | f in a + k + l
      ensures f.AmountFactor? || f.KeywordFactor? || f.BuyerAddressFactor? || f.SellerAddressFactor? || f.ShortDescription?
    {
      assert f in a || f in k || f in l;
    }
  }

  /** The AI line is the last reason exactly when the analysis is shown. */
  lemma AiReasonLast(amount: Amount, description: string, buyer: string, seller: string, ai: string)
    ensures ShowsAi(ai) <==>
      Reasons(amount, description, buyer, seller, ai)[|Reasons(amount, description, buyer, seller, ai)| - 1] == AiFactor(ai)
  {
    var rules := RuleFactors(amount, description, buyer, seller);
    var shown := if rules == [] then [NoFactor] else rules;
    var r := Reasons(amount, description, buyer, seller, ai);
    if !ShowsAi(ai) {
      assert r == shown;
      if rules != [] {
        RuleFactorsKinds(amount, description, buyer, seller);
        assert r[|r| - 1] in rules;
      }
    }
  }

  /** A non-positive amount alone makes the transaction high risk. */
  lemma NonPositiveAmountIsHighRisk(x: real, description: string, buyer: string, seller: string)
    requires x <= 0.0
    ensures FinalScore(BaseScore(Number(x), description, buyer, seller)) == 100
    ensures Classify(FinalScore(BaseScore(Number(x), description, buyer, seller))).level == HighRisk
  {
    var b := BaseScore(Number(x), description, buyer, seller);
    assert b >= 100.0;
    TruncMonotone(100.0, b);
    TruncOfInt(100);
  }

  /** The score is non-decreasing in the amount over valid amounts, all else equal. */
  lemma ScoreMonotoneInAmount(x: real, y: real, description: string, buyer: string, seller: string)
    requires 0.0 < x <= y
    ensures FinalScore(BaseScore(Number(x), description, buyer, seller))
      <= FinalScore(BaseScore(Number(y), description, buyer, seller))
  {
    AmountRiskMonotone(x, y);
    TruncMonotone(BaseScore(Number(x), description, buyer, seller), BaseScore(Number(y), description, buyer, seller));
  }

  /** Steps 3 and 4 of `assess_risk`: the two addresses and the
      description's length. */
  method AddressAndDescriptionSteps(description: string, buyer: string, seller: string)
    returns (added: real, factors: seq<Factor>)
    ensures added == AddressContribution(buyer) + AddressContribution(seller)
                     + (if ShortText(description) then 20.0 else 0.0)
    ensures factors == LaterFactors(description, buyer, seller)
  {
    added := 0.0;
    var buyerRisk := AddressRisk(buyer);
    var sellerRisk := AddressRisk(seller);
    var step: seq<Factor> := [];
    if buyerRisk.score > 30 {
      added := added + buyerRisk.score as real * 0.5;
      step := [BuyerAddressFactor(buyerRisk.reason)];
    }
    assert step == BuyerFactors(buyer);
    factors := step;
    step := [];
    if sellerRisk.score > 30 {
      added := added + sellerRisk.score as real * 0.5;
      step := [SellerAddressFactor(sellerRisk.reason)];
    }
    assert step == SellerFactors(seller);
    factors := factors + step;
    assert added == AddressContribution(buyer) + AddressContribution(seller);

    step := [];
    if description == "" || |description| < 10 {
      added := added + 20.0;
      step := [ShortDescription];
    }
    assert step == DescriptionFactors(description);
    factors := factors + step;
  }

  /** Steps 1-4 of `assess_risk`: the summed base score and the rule-based
      reasons, in step order. */
  method ScoreRules(amount: Amount, description: string, buyer: string, seller: string)
    returns (base: real, factors: seq<Factor>)
    ensures base == BaseScore(amount, description, buyer, seller)
    ensures factors == RuleFactors(amount, description, buyer, seller)
  {
    var amountRisk := AmountRisk(amount);
    base := amountRisk.score as real;
    factors := [];
    if amountRisk.score > 30 {
      factors := [AmountFactor(amountRisk.reason)];
    }
    assert factors == AmountFactors(amount);

    var keywords := DetectScamKeywords(description);
    var added: seq<Factor> := [];
    if keywords != [] {
      base := base + KeywordScore(|keywords|) as real;
      added := [KeywordFactor(Take(keywords, 3))];
    }
    assert added == KeywordFactors(description);
    assert base == AmountRisk(amount).score as real + KeywordScore(|keywords|) as real;
    factors := factors + added;

    var rest, restFactors := AddressAndDescriptionSteps(description, buyer, seller);
    base := base + rest;
    factors := factors + restFactors;
  }

  /** `assess_risk` past the AI call; `ai` is the analysis text the model
      produced (empty when it answered with an error status, the unavailable
      notice when the call raised). */
  method AssessRisk(amount: Amount, description: string, buyer: string, seller: string, ai: string)
    returns (r: Assessment)
    ensures r.score == FinalScore(BaseScore(amount, description, buyer, seller))
    ensures 0 <= r.score <= 100
    ensures r.classification == Classify(r.score)
    ensures r.reasons == Reasons(amount, description, buyer, seller, ai)
  {
    var base, factors := ScoreRules(amount, description, buyer, seller);
    var finalScore := FinalScore(base);
    var classification := Classify(finalScore);
    if factors == [] {
      factors := [NoFactor];
    }
    var aiLine: seq<Factor> := [];
    if ai != "" && ai != AiUnavailable {
      aiLine := [AiFactor(ai)];
    }
    r := Assessment(finalScore, classification, factors + aiLine);
  }
}
