/** The credit scoring service (backend/credit_score_api.py): the weighted
    score of a trading history, the four credit levels, the profile tags,
    the trading advice and the comparison of two users. Python floats are
    exact reals here; `int()` is `Trunc`. */
module Credit {
  import opened Base

  /** One user's trading history, as the scoring functions read it. */
  datatype History = History(
    accountAgeDays: nat,
    totalTransactions: nat,
    completedTransactions: nat,
    cancelledTransactions: nat,
    buyerTransactions: nat,
    sellerTransactions: nat,
    totalVolume: real,
    avgTransactionValue: real,
    disputesInitiated: nat,
    disputesWon: nat,
    disputesLost: nat,
    positiveReviews: nat,
    negativeReviews: nat,
    neutralReviews: nat,
    avgResponseTime: real,
    lastActiveDays: nat)

  // ---------------------------------------------------------------------
  // The score

  function TotalReviews(h: History): nat
  {
    h.positiveReviews + h.negativeReviews + h.neutralReviews
  }

  function CompletionRate(h: History): real
    requires h.totalTransactions > 0
  {
    h.completedTransactions as real / h.totalTransactions as real
  }

  function DisputeRate(h: History): real
    requires h.totalTransactions > 0
  {
    h.disputesInitiated as real / h.totalTransactions as real
  }

  function PositiveRate(h: History): real
    requires TotalReviews(h) > 0
  {
    h.positiveReviews as real / TotalReviews(h) as real
  }

  /** Step 1: account age, capped at 100 points, weight 0.15. */
  function AgePoints(h: History): real
  {
    MinReal(h.accountAgeDays as real / 365.0 * 100.0, 100.0) * 0.15
  }

  /** Step 2: completion rate times 200, weight 0.25. */
  function CompletionPoints(h: History): real
  {
    if h.totalTransactions > 0 then CompletionRate(h) * 200.0 * 0.25 else 0.0
  }

  /** Step 3: number of transactions, capped at 150 points, weight 0.20. */
  function CountPoints(h: History): real
  {
    MinReal(h.totalTransactions as real / 100.0 * 150.0, 150.0) * 0.20
  }

  /** Step 4: traded volume, capped at 100 points, weight 0.10. */
  function VolumePoints(h: History): real
  {
    MinReal(h.totalVolume / 50000.0 * 100.0, 100.0) * 0.10
  }

  /** Step 5: share of positive reviews times 200, weight 0.20. */
  function ReviewPoints(h: History): real
  {
    if TotalReviews(h) > 0 then PositiveRate(h) * 200.0 * 0.20 else 0.0
  }

  /** Step 6: dispute rate times 150, subtracted. */
  function DisputePenalty(h: History): real
  {
    if h.totalTransactions > 0 then DisputeRate(h) * 150.0 else 0.0
  }

  /** Step 7: response time in hours, 50/30/10/0 points, weight 0.05. */
  function ResponsePoints(h: History): real
  {
    (if h.avgResponseTime < 1.0 then 50.0
     else if h.avgResponseTime < 6.0 then 30.0
     else if h.avgResponseTime < 24.0 then 10.0
     else 0.0) * 0.05
  }

  /** Step 8: days since last activity, 50/30/10/0 points, weight 0.05. */
  function ActivityPoints(h: History): real
  {
    (if h.lastActiveDays < 7 then 50.0
     else if h.lastActiveDays < 30 then 30.0
     else if h.lastActiveDays < 90 then 10.0
     else 0.0) * 0.05
  }

  /** The score before `int()` and clamping: 500 plus the eight steps. */
  function RawScore(h: History): real
  {
    500.0 + AgePoints(h) + CompletionPoints(h) + CountPoints(h) + VolumePoints(h)
    + ReviewPoints(h) - DisputePenalty(h) + ResponsePoints(h) + ActivityPoints(h)
  }

  /** The credit score: `max(0, min(1000, int(score)))`. */
  function CreditScore(h: History): (s: int)
    ensures 0 <= s <= 1000
  {
    Clamp(0, 1000, Trunc(RawScore(h)))
  }

  /** `calculate_credit_score`, step by step as the service accumulates it. */
  method CalculateCreditScore(h: History) returns (score: int)
    ensures 0 <= score <= 1000
    ensures score == CreditScore(h)
  {
    var s: real := 500.0;
    var ageScore := MinReal(h.accountAgeDays as real / 365.0 * 100.0, 100.0);
    s := s + ageScore * 0.15;
    assert s == 500.0 + AgePoints(h);
    if h.totalTransactions > 0 {
      var completionRate := h.completedTransactions as real / h.totalTransactions as real;
      s := s + completionRate * 200.0 * 0.25;
    }
    assert s == 500.0 + AgePoints(h) + CompletionPoints(h);
    var transactionScore := MinReal(h.totalTransactions as real / 100.0 * 150.0, 150.0);
    s := s + transactionScore * 0.20;
    var volumeScore := MinReal(h.totalVolume / 50000.0 * 100.0, 100.0);
    s := s + volumeScore * 0.10;
    assert s == 500.0 + AgePoints(h) + CompletionPoints(h) + CountPoints(h) + VolumePoints(h);
    var totalReviews := h.positiveReviews + h.negativeReviews + h.neutralReviews;
    if totalReviews > 0 {
      var positiveRate := h.positiveReviews as real / totalReviews as real;
      s := s + positiveRate * 200.0 * 0.20;
    }
    assert s == 500.0 + AgePoints(h) + CompletionPoints(h) + CountPoints(h) + VolumePoints(h) + ReviewPoints(h);
    if h.totalTransactions > 0 {
      var disputeRate := h.disputesInitiated as real / h.totalTransactions as real;
      s := s - disputeRate * 150.0;
    }
    assert s == 500.0 + AgePoints(h) + CompletionPoints(h) + CountPoints(h) + VolumePoints(h)
                + ReviewPoints(h) - DisputePenalty(h);
    var responseScore: real;
    if h.avgResponseTime < 1.0 {
      responseScore := 50.0;
    } else if h.avgResponseTime < 6.0 {
      responseScore := 30.0;
    } else if h.avgResponseTime < 24.0 {
      responseScore := 10.0;
    } else {
      responseScore := 0.0;
    }
    s := s + responseScore * 0.05;
    var activityScore: real;
    if h.lastActiveDays < 7 {
      activityScore := 50.0;
    } else if h.lastActiveDays < 30 {
      activityScore := 30.0;
    } else if h.lastActiveDays < 90 {
      activityScore := 10.0;
    } else {
      activityScore := 0.0;
    }
    s := s + activityScore * 0.05;
    assert s == RawScore(h);
    score := Clamp(0, 1000, Trunc(s));
  }

  lemma RatioAtMostOne(a: nat, b: nat)
    requires 0 < b && a <= b
    ensures a as real / b as real <= 1.0
  {
    assert a as real <= b as real;
  }

  /** Dividing by a positive real keeps the order. */
  lemma DivideMonotone(a: real, b: real, t: real)
    requires a <= b && t > 0.0
    ensures a / t <= b / t
  {
    var d := b - a;
    assert b / t == a / t + d / t;
    assert d / t >= 0.0;
  }

  /** With no more completed transactions than transactions, no bonus can
      lift the score above 500 + 150. */
  lemma RawScoreAtMost650(h: History)
    requires h.completedTransactions <= h.totalTransactions
    ensures RawScore(h) <= 650.0
    ensures CreditScore(h) <= 650 && CreditScore(h) < CreditLevels[3].min
  {
    if h.totalTransactions > 0 {
      RatioAtMostOne(h.completedTransactions, h.totalTransactions);
      assert CompletionPoints(h) <= 50.0;
    }
    if TotalReviews(h) > 0 {
      RatioAtMostOne(h.positiveReviews, TotalReviews(h));
      assert ReviewPoints(h) <= 40.0;
    }
    assert DisputePenalty(h) >= 0.0;
    TruncMonotone(RawScore(h), 650.0);
    TruncOfInt(650);
  }

  /** From raw scores to final scores: `int()` and the clamp keep order. */
  lemma CreditScoreMonotone(h: History, h': History)
    requires RawScore(h) <= RawScore(h')
    ensures CreditScore(h) <= CreditScore(h')
  {
    TruncMonotone(RawScore(h), RawScore(h'));
    ClampMonotone(0, 1000, Trunc(RawScore(h)), Trunc(RawScore(h')));
  }

  /** An older account never scores lower, other things equal. */
  lemma ScoreMonotoneInAge(h: History, days: nat)
    requires h.accountAgeDays <= days
    ensures CreditScore(h) <= CreditScore(h.(accountAgeDays := days))
  {
    var h' := h.(accountAgeDays := days);
    assert h.accountAgeDays as real / 365.0 <= days as real / 365.0;
    assert AgePoints(h) <= AgePoints(h');
    CreditScoreMonotone(h, h');
  }

  /** More disputes never raise the score, other things equal. */
  lemma ScoreAntitoneInDisputes(h: History, disputes: nat)
    requires h.totalTransactions > 0 && h.disputesInitiated <= disputes
    ensures CreditScore(h.(disputesInitiated := disputes)) <= CreditScore(h)
  {
    var h' := h.(disputesInitiated := disputes);
    DivideMonotone(h.disputesInitiated as real, disputes as real, h.totalTransactions as real);
    assert DisputePenalty(h) <= DisputePenalty(h');
    CreditScoreMonotone(h', h);
  }

  /** A slower average response never raises the score, other things equal. */
  lemma ScoreAntitoneInResponseTime(h: History, hours: real)
    requires h.avgResponseTime <= hours
    ensures CreditScore(h.(avgResponseTime := hours)) <= CreditScore(h)
  {
    var h' := h.(avgResponseTime := hours);
    assert ResponsePoints(h') <= ResponsePoints(h);
    CreditScoreMonotone(h', h);
  }

  // ---------------------------------------------------------------------
  // Levels

  datatype Level = Level(key: string, name: string, min: int, max: int, color: string)

  /** `CREDIT_LEVELS`, in the dictionary's order. */
  const CreditLevels: seq<Level> := [
    Level("novice", "新手", 0, 299, "#6b7280"),
    Level("normal", "普通", 300, 599, "#3b82f6"),
    Level("good", "优秀", 600, 799, "#10b981"),
    Level("excellent", "卓越", 800, 1000, "#f59e0b")]

  predicate InBand(l: Level, score: int)
  {
    l.min <= score <= l.max
  }

  /** The four bands are pairwise disjoint and together cover exactly 0..1000. */
  lemma {:induction false} BandsPartition(score: int)
    ensures (exists i :: 0 <= i < |CreditLevels| && InBand(CreditLevels[i], score)) <==> 0 <= score <= 1000
    ensures forall i, j :: 0 <= i < j < |CreditLevels| ==>
      !(InBand(CreditLevels[i], score) && InBand(CreditLevels[j], score))
  {
    if 0 <= score <= 1000 {
      var i := if score <= 299 then 0 else if score <= 599 then 1 else if score <= 799 then 2 else 3;
      assert InBand(CreditLevels[i], score);
    }
  }

  /** `get_credit_level`: the first band that holds the score, or the novice
      level when none does. */
  method GetCreditLevel(score: int) returns (key: string, name: string, color: string)
    ensures forall i :: 0 <= i < |CreditLevels| && InBand(CreditLevels[i], score) ==>
      key == CreditLevels[i].key && name == CreditLevels[i].name && color == CreditLevels[i].color
    ensures !(0 <= score <= 1000) ==> key == "novice" && name == "新手" && color == "#6b7280"
    ensures key == "novice" <==> score <= 299 || score > 1000
    ensures key == "normal" <==> 300 <= score <= 599
    ensures key == "good" <==> 600 <= score <= 799
    ensures key == "excellent" <==> 800 <= score <= 1000
  {
    BandsPartition(score);
    for i := 0 to |CreditLevels|
      invariant forall j :: 0 <= j < i ==> !InBand(CreditLevels[j], score)
    {
      var level := CreditLevels[i];
      if level.min <= score <= level.max {
        return level.key, level.name, level.color;
      }
    }
    return "novice", "新手", "#6b7280";
  }

  // ---------------------------------------------------------------------
  // Tags

  /** The profile tags, each with the label the service shows. */
  datatype Tag =
    | LongTermActive | ModeratelyActive | NewUser
    | Trustworthy | HighCancellation
    | HighlyPraised | ManyNegative
    | FastResponse | SlowResponse
    | ProSeller | ActiveBuyer | Balanced
    | ZeroDisputes | ManyDisputes
    | RecentlyActive | Inactive
    | CreditExcellent | CreditGood
  {
    function Label(): string
    {
      match this
      case LongTermActive => "长期活跃"
      case ModeratelyActive => "中等活跃"
      case NewUser => "新手用户"
      case Trustworthy => "守信用"
      case HighCancellation => "取消率高"
      case HighlyPraised => "好评如潮"
      case ManyNegative => "差评较多"
      case FastResponse => "响应快"
      case SlowResponse => "响应慢"
      case ProSeller => "专业卖家"
      case ActiveBuyer => "活跃买家"
      case Balanced => "买卖均衡"
      case ZeroDisputes => "零纠纷"
      case ManyDisputes => "纠纷较多"
      case RecentlyActive => "最近活跃"
      case Inactive => "不活跃"
      case CreditExcellent => "信用卓越"
      case CreditGood => "信用优秀"
    }

    /** The rule group (0..7) that can produce the tag. */
    function Group(): nat
    {
      match this
      case LongTermActive | ModeratelyActive | NewUser => 0
      case Trustworthy | HighCancellation => 1
      case HighlyPraised | ManyNegative => 2
      case FastResponse | SlowResponse => 3
      case ProSeller | ActiveBuyer | Balanced => 4
      case ZeroDisputes | ManyDisputes => 5
      case RecentlyActive | Inactive => 6
      case CreditExcellent | CreditGood => 7
    }
  }

  predicate IsSeller(h: History) { h.sellerTransactions > h.buyerTransactions * 2 }
  predicate IsBuyer(h: History) { h.buyerTransactions > h.sellerTransactions * 2 }

  /** When a user earns a tag, stated tag by tag: the reference reading of
      the eight rule groups, with each `elif` turned into its full guard. */
  predicate Earns(h: History, score: int, t: Tag)
  {
    match t
    case LongTermActive => h.totalTransactions > 100
    case ModeratelyActive => 50 < h.totalTransactions <= 100
    case NewUser => h.totalTransactions < 10
    case Trustworthy => h.totalTransactions > 0 && CompletionRate(h) > 0.95
    case HighCancellation => h.totalTransactions > 0 && CompletionRate(h) < 0.7
    case HighlyPraised => TotalReviews(h) > 0 && PositiveRate(h) > 0.9
    case ManyNegative => TotalReviews(h) > 0 && PositiveRate(h) < 0.6
    case FastResponse => h.avgResponseTime < 1.0
    case SlowResponse => h.avgResponseTime > 24.0
    case ProSeller => IsSeller(h)
    case ActiveBuyer => !IsSeller(h) && IsBuyer(h)
    case Balanced => !IsSeller(h) && !IsBuyer(h)
    case ZeroDisputes => h.disputesInitiated == 0
    case ManyDisputes => h.disputesInitiated > 5
    case RecentlyActive => h.lastActiveDays < 7
    case Inactive => h.lastActiveDays > 90
    case CreditExcellent => score >= 800
    case CreditGood => 600 <= score < 800
  }

  // The tag (if any) each rule group adds, as its if/elif chain picks it.

  function VolumeTag(h: History): seq<Tag>
  {
    if h.totalTransactions > 100 then [LongTermActive]
    else if h.totalTransactions > 50 then [ModeratelyActive]
    else if h.totalTransactions < 10 then [NewUser] else []
  }

  function CompletionTag(h: History): seq<Tag>
  {
    if h.totalTransactions == 0 then []
    else if CompletionRate(h) > 0.95 then [Trustworthy]
    else if CompletionRate(h) < 0.7 then [HighCancellation] else []
  }

  function ReviewTag(h: History): seq<Tag>
  {
    if TotalReviews(h) == 0 then []
    else if PositiveRate(h) > 0.9 then [HighlyPraised]
    else if PositiveRate(h) < 0.6 then [ManyNegative] else []
  }

  function ResponseTag(h: History): seq<Tag>
  {
    if h.avgResponseTime < 1.0 then [FastResponse]
    else if h.avgResponseTime > 24.0 then [SlowResponse] else []
  }

  function RoleTag(h: History): seq<Tag>
  {
    if IsSeller(h) then [ProSeller] else if IsBuyer(h) then [ActiveBuyer] else [Balanced]
  }

  function DisputeTag(h: History): seq<Tag>
  {
    if h.disputesInitiated == 0 then [ZeroDisputes]
    else if h.disputesInitiated > 5 then [ManyDisputes] else []
  }

  function ActivityTag(h: History): seq<Tag>
  {
    if h.lastActiveDays < 7 then [RecentlyActive]
    else if h.lastActiveDays > 90 then [Inactive] else []
  }

  function ScoreTag(score: int): seq<Tag>
  {
    if score >= 800 then [CreditExcellent] else if score >= 600 then [CreditGood] else []
  }

  /** The tags before the cut to eight: each rule group's tag, in order. */
  function UserTags(h: History, score: int): seq<Tag>
  {
    VolumeTag(h) + CompletionTag(h) + ReviewTag(h) + ResponseTag(h)
    + RoleTag(h) + DisputeTag(h) + ActivityTag(h) + ScoreTag(score)
  }

  /** A rule group adds a tag exactly when the user earns it: the groups on
      volume, completion, reviews and response time. */
  lemma RuleGroupsSound(h: History, score: int, t: Tag)
    ensures t in VolumeTag(h) <==> t.Group() == 0 && Earns(h, score, t)
    ensures t in CompletionTag(h) <==> t.Group() == 1 && Earns(h, score, t)
    ensures t in ReviewTag(h) <==> t.Group() == 2 && Earns(h, score, t)
    ensures t in ResponseTag(h) <==> t.Group() == 3 && Earns(h, score, t)
  {
  }

  /** The same for the groups on role, disputes, activity and score. */
  lemma LaterGroupsSound(h: History, score: int, t: Tag)
    ensures t in RoleTag(h) <==> t.Group() == 4 && Earns(h, score, t)
    ensures t in DisputeTag(h) <==> t.Group() == 5 && Earns(h, score, t)
    ensures t in ActivityTag(h) <==> t.Group() == 6 && Earns(h, score, t)
    ensures t in ScoreTag(score) <==> t.Group() == 7 && Earns(h, score, t)
  {
  }

  /** Tags strictly ordered by rule group, hence no group twice. */
  predicate GroupOrdered(tags: seq<Tag>)
  {
    forall i, j :: 0 <= i < j < |tags| ==> tags[i].Group() < tags[j].Group()
  }

  predicate GroupsBelow(tags: seq<Tag>, g: nat)
  {
    forall i :: 0 <= i < |tags| ==> tags[i].Group() < g
  }

  /** Appending group `g`'s tag after the tags of groups below `g`. */
  lemma AppendGroup(prefix: seq<Tag>, added: seq<Tag>, g: nat)
    requires GroupOrdered(prefix) && GroupsBelow(prefix, g) && |prefix| <= g
    requires |added| <= 1 && forall t :: t in added ==> t.Group() == g
    ensures GroupOrdered(prefix + added) && GroupsBelow(prefix + added, g + 1)
    ensures |prefix + added| <= g + 1
  {
    var r := prefix + added;
    forall i, j | 0 <= i < j < |r|
      ensures r[i].Group() < r[j].Group()
    {
      if j >= |prefix| {
        assert r[j] in added;
      }
    }
    forall i | 0 <= i < |r|
      ensures r[i].Group() < g + 1
    {
      if i >= |prefix| {
        assert r[i] in added;
      }
    }
  }

  /** Each rule group adds at most one tag, and only a tag of its own group. */
  lemma RuleGroupShapes(h: History, score: int)
    ensures |VolumeTag(h)| <= 1 && forall t :: t in VolumeTag(h) ==> t.Group() == 0
    ensures |CompletionTag(h)| <= 1 && forall t :: t in CompletionTag(h) ==> t.Group() == 1
    ensures |ReviewTag(h)| <= 1 && forall t :: t in ReviewTag(h) ==> t.Group() == 2
    ensures |ResponseTag(h)| <= 1 && forall t :: t in ResponseTag(h) ==> t.Group() == 3
    ensures |RoleTag(h)| <= 1 && forall t :: t in RoleTag(h) ==> t.Group() == 4
    ensures |DisputeTag(h)| <= 1 && forall t :: t in DisputeTag(h) ==> t.Group() == 5
    ensures |ActivityTag(h)| <= 1 && forall t :: t in ActivityTag(h) ==> t.Group() == 6
    ensures |ScoreTag(score)| <= 1 && forall t :: t in ScoreTag(score) ==> t.Group() == 7
  {
  }

  /** At most one tag per rule group, so at most eight in all. */
  lemma UserTagsLength(h: History, score: int)
    ensures |UserTags(h, score)| <= 8
  {
    RuleGroupShapes(h, score);
  }

  /** The user's tags come at most one per rule group, in group order;
      so there are at most eight. */
  lemma UserTagsOrdered(h: History, score: int)
    ensures |UserTags(h, score)| <= 8
    ensures GroupOrdered(UserTags(h, score))
  {
    RuleGroupShapes(h, score);
    var p: seq<Tag> := [];
    AppendGroup(p, VolumeTag(h), 0);
    p := p + VolumeTag(h);
    assert p == VolumeTag(h);
    AppendGroup(p, CompletionTag(h), 1);
    p := p + CompletionTag(h);
    AppendGroup(p, ReviewTag(h), 2);
    p := p + ReviewTag(h);
    AppendGroup(p, ResponseTag(h), 3);
    p := p + ResponseTag(h);
    AppendGroup(p, RoleTag(h), 4);
    p := p + RoleTag(h);
    AppendGroup(p, DisputeTag(h), 5);
    p := p + DisputeTag(h);
    AppendGroup(p, ActivityTag(h), 6);
    p := p + ActivityTag(h);
    AppendGroup(p, ScoreTag(score), 7);
    p := p + ScoreTag(score);
    assert p == UserTags(h, score);
  }

  /** The user's tags are exactly the tags the user earns. */
  lemma UserTagsEarned(h: History, score: int, t: Tag)
    ensures t in UserTags(h, score) <==> Earns(h, score, t)
  {
    RuleGroupsSound(h, score, t);
    LaterGroupsSound(h, score, t);
  }

  /** Exactly one of the three role tags is always present. */
  lemma OneRoleTag(h: History, score: int)
    ensures (ProSeller in UserTags(h, score)) || (ActiveBuyer in UserTags(h, score))
      || (Balanced in UserTags(h, score))
    ensures !(ProSeller in UserTags(h, score) && ActiveBuyer in UserTags(h, score))
    ensures !(ProSeller in UserTags(h, score) && Balanced in UserTags(h, score))
    ensures !(ActiveBuyer in UserTags(h, score) && Balanced in UserTags(h, score))
  {
    UserTagsEarned(h, score, ProSeller);
    UserTagsEarned(h, score, ActiveBuyer);
    UserTagsEarned(h, score, Balanced);
  }

  /** `generate_user_tags`: each rule group appends its tag (if any) in
      order, then the list is cut to eight, which never removes anything. */
  method GenerateUserTags(h: History, score: int) returns (tags: seq<Tag>)
    ensures tags == UserTags(h, score)
    ensures |tags| <= 8
  {
    var all := VolumeTag(h);
    all := all + CompletionTag(h);
    all := all + ReviewTag(h);
    all := all + ResponseTag(h);
    all := all + RoleTag(h);
    all := all + DisputeTag(h);
    all := all + ActivityTag(h);
    all := all + ScoreTag(score);
    UserTagsLength(h, score);
    tags := Take(all, 8);
  }

  // ---------------------------------------------------------------------
  // Trading advice

  datatype Reason =
    | ScoreExcellent(score: int) | ScoreMedium(score: int) | ScoreLow(score: int)
    | Experienced(count: nat) | Inexperienced(count: nat)
    | HighCompletion(rate: real) | LowCompletion(rate: real)
    | NoDisputes | FrequentDisputes(rate: real)
  {
    /** The reasons marked ❌: a low score, a low completion rate, frequent disputes. */
    predicate Warns()
    {
      ScoreLow? || LowCompletion? || FrequentDisputes?
    }
  }

  datatype Suggestion =
    | StronglyRecommend | LargeTradesOk
    | Recommend | SmallMediumTrades
    | MayTry | SmallTestTrade | KeepEvidence
    | NotRecommended | ExtraCaution | UseRiskAssessment | ExtendEscrow
    | InactiveFor(days: nat)

  datatype Advice = Advice(recommended: bool, confidence: int, reasons: seq<Reason>, suggestions: seq<Suggestion>)

  /** The four suggestions that open the advice against trading. */
  const Cautions: seq<Suggestion> := [NotRecommended, ExtraCaution, UseRiskAssessment, ExtendEscrow]

  predicate LowCompletionRate(h: History) { h.totalTransactions > 0 && CompletionRate(h) < 0.7 }
  predicate HighDisputeRate(h: History) { h.totalTransactions > 0 && DisputeRate(h) > 0.1 }

  /** The confidence the score alone gives, before the history's deductions. */
  function ScoreConfidence(score: int): real
  {
    if score >= 700 then MinReal(95.0, 60.0 + (score - 700) as real / 3.0)
    else if score >= 500 then 50.0 + (score - 500) as real / 4.0
    else 30.0
  }

  /** The confidence before `int()` and clamping: the score's confidence less
      10 for little experience, 20 for a low completion rate and 15 for a
      high dispute rate. */
  function RawAdviceConfidence(h: History, score: int): real
  {
    ScoreConfidence(score)
    - (if h.totalTransactions < 10 then 10.0 else 0.0)
    - (if LowCompletionRate(h) then 20.0 else 0.0)
    - (if HighDisputeRate(h) then 15.0 else 0.0)
  }

  /** The reason the score band gives. */
  function ScoreReason(score: int): Reason
  {
    if score >= 700 then ScoreExcellent(score) else if score >= 500 then ScoreMedium(score) else ScoreLow(score)
  }

  /** The reason the trade count gives, if any. */
  function ExperienceReasons(h: History): seq<Reason>
  {
    if h.totalTransactions > 50 then [Experienced(h.totalTransactions)]
    else if h.totalTransactions < 10 then [Inexperienced(h.totalTransactions)] else []
  }

  /** The reason the completion rate gives, if any. */
  function CompletionReasons(h: History): seq<Reason>
  {
    if h.totalTransactions == 0 then []
    else if CompletionRate(h) > 0.9 then [HighCompletion(CompletionRate(h))]
    else if CompletionRate(h) < 0.7 then [LowCompletion(CompletionRate(h))] else []
  }

  /** The reason the dispute rate gives, if any. */
  function DisputeReasons(h: History): seq<Reason>
  {
    if h.totalTransactions == 0 then []
    else if DisputeRate(h) == 0.0 then [NoDisputes]
    else if DisputeRate(h) > 0.1 then [FrequentDisputes(DisputeRate(h))] else []
  }

  /** The advice's reasons: the score band's, then those of the trade count,
      the completion rate and the dispute rate. */
  function AdviceReasonList(h: History, score: int): seq<Reason>
  {
    [ScoreReason(score)] + ExperienceReasons(h) + CompletionReasons(h) + DisputeReasons(h)
  }

  /** Which reason each history rule contributes, and when. */
  lemma AdviceReasonsPerRule(h: History, score: int)
    ensures var r := AdviceReasonList(h, score);
      && 1 <= |r| <= 4 && r[0] == ScoreReason(score)
      && (Experienced(h.totalTransactions) in r <==> h.totalTransactions > 50)
      && (Inexperienced(h.totalTransactions) in r <==> h.totalTransactions < 10)
      && (NoDisputes in r <==> h.totalTransactions > 0 && h.disputesInitiated == 0)
    ensures h.totalTransactions > 0 ==> var r := AdviceReasonList(h, score);
      && (HighCompletion(CompletionRate(h)) in r <==> CompletionRate(h) > 0.9)
      && (LowCompletion(CompletionRate(h)) in r <==> LowCompletionRate(h))
      && (FrequentDisputes(DisputeRate(h)) in r <==> HighDisputeRate(h))
  {
    var r := AdviceReasonList(h, score);
    var e, c, d := ExperienceReasons(h), CompletionReasons(h), DisputeReasons(h);
    assert r == [ScoreReason(score)] + e + c + d;
    forall x | x in r
      ensures x == ScoreReason(score) || x in e || x in c || x in d
    {
    }
    if h.totalTransactions > 0 {
      assert NoDisputes in r <==> DisputeRate(h) == 0.0;
      assert DisputeRate(h) == 0.0 <==> h.disputesInitiated == 0 by {
        if h.disputesInitiated > 0 {
          assert h.disputesInitiated as real / h.totalTransactions as real > 0.0;
        }
      }
    }
  }

  /** The advice recommends trading exactly when none of its reasons is a
      ❌ reason. */
  lemma RecommendedIffNoWarning(h: History, score: int)
    ensures (score >= 500 && !LowCompletionRate(h) && !HighDisputeRate(h))
      <==> forall i :: 0 <= i < |AdviceReasonList(h, score)| ==> !AdviceReasonList(h, score)[i].Warns()
  {
    var r := AdviceReasonList(h, score);
    var e, c, d := ExperienceReasons(h), CompletionReasons(h), DisputeReasons(h);
    assert r == [ScoreReason(score)] + e + c + d;
    if score < 500 {
      assert r[0].Warns();
    } else if LowCompletionRate(h) {
      assert r[1 + |e|] == c[0];
    } else if HighDisputeRate(h) {
      assert r[1 + |e| + |c|] == d[0];
    } else {
      forall i | 0 <= i < |r|
        ensures !r[i].Warns()
      {
        assert r[i] in r;
        assert r[i] == ScoreReason(score) || r[i] in e || r[i] in c || r[i] in d;
      }
    }
  }

  /** The reasons part of `generate_trading_advice`: the score band sets
      the first reason and the starting confidence, then each history rule
      adds a reason and may veto the recommendation or cut the confidence. */
  method AdviceReasons(h: History, score: int) returns (recommended: bool, confidence: real, reasons: seq<Reason>)
    ensures recommended <==> score >= 500 && !LowCompletionRate(h) && !HighDisputeRate(h)
    ensures confidence == RawAdviceConfidence(h, score)
    ensures reasons == AdviceReasonList(h, score)
  {
    if score >= 700 {
      recommended := true;
      confidence := MinReal(95.0, 60.0 + (score - 700) as real / 3.0);
      reasons := [ScoreExcellent(score)];
    } else if score >= 500 {
      recommended := true;
      confidence := 50.0 + (score - 500) as real / 4.0;
      reasons := [ScoreMedium(score)];
    } else {
      recommended := false;
      confidence := 30.0;
      reasons := [ScoreLow(score)];
    }
    assert confidence == ScoreConfidence(score);
    assert reasons == [ScoreReason(score)];

    if h.totalTransactions > 50 {
      reasons := reasons + [Experienced(h.totalTransactions)];
    } else if h.totalTransactions < 10 {
      reasons := reasons + [Inexperienced(h.totalTransactions)];
      confidence := confidence - 10.0;
    }
    assert reasons == [ScoreReason(score)] + ExperienceReasons(h);

    if h.totalTransactions > 0 {
      var completionRate := h.completedTransactions as real / h.totalTransactions as real;
      if completionRate > 0.9 {
        reasons := reasons + [HighCompletion(completionRate)];
      } else if completionRate < 0.7 {
        reasons := reasons + [LowCompletion(completionRate)];
        recommended := false;
        confidence := confidence - 20.0;
      }
    }
    assert reasons == [ScoreReason(score)] + ExperienceReasons(h) + CompletionReasons(h);

    if h.totalTransactions > 0 {
      var disputeRate := h.disputesInitiated as real / h.totalTransactions as real;
      if disputeRate == 0.0 {
        reasons := reasons + [NoDisputes];
      } else if disputeRate > 0.1 {
        reasons := reasons + [FrequentDisputes(disputeRate)];
        recommended := false;
        confidence := confidence - 15.0;
      }
    }
  }

  /** The suggestions: those of the recommendation and score band, then the
      inactivity note. */
  function Suggestions(recommended: bool, score: int, lastActiveDays: nat): seq<Suggestion>
  {
    (if !recommended then Cautions
     else if score >= 800 then [StronglyRecommend, LargeTradesOk]
     else if score >= 600 then [Recommend, SmallMediumTrades]
     else [MayTry, SmallTestTrade, KeepEvidence])
    + (if lastActiveDays > 30 then [InactiveFor(lastActiveDays)] else [])
  }

  /** How many suggestions there are, which open the list, and which close it. */
  lemma SuggestionsShape(recommended: bool, score: int, lastActiveDays: nat)
    ensures var s := Suggestions(recommended, score, lastActiveDays);
      && |s| == (if !recommended then 4 else if score >= 600 then 2 else 3) + (if lastActiveDays > 30 then 1 else 0)
      && (!recommended ==> s[..4] == Cautions)
      && (recommended ==> s[0] == (if score >= 800 then StronglyRecommend else if score >= 600 then Recommend else MayTry))
      && (NotRecommended in s <==> !recommended)
      && (KeepEvidence in s <==> recommended && score < 600)
      && (lastActiveDays > 30 <==> s[|s| - 1] == InactiveFor(lastActiveDays))
  {
    var s := Suggestions(recommended, score, lastActiveDays);
    if recommended {
      assert NotRecommended !in s;
    } else {
      assert s[0] == NotRecommended;
    }
    if recommended && score < 600 {
      assert s[2] == KeepEvidence;
    }
  }

  /** The suggestions part of `generate_trading_advice`. */
  method AdviceSuggestions(recommended: bool, score: int, lastActiveDays: nat) returns (suggestions: seq<Suggestion>)
    ensures suggestions == Suggestions(recommended, score, lastActiveDays)
    ensures |suggestions| >= 2
    ensures !recommended ==> |suggestions| >= 4 && suggestions[..4] == Cautions
    ensures recommended ==>
      suggestions[0] == (if score >= 800 then StronglyRecommend else if score >= 600 then Recommend else MayTry)
    ensures lastActiveDays > 30 <==> suggestions[|suggestions| - 1] == InactiveFor(lastActiveDays)
  {
    if recommended {
      if score >= 800 {
        suggestions := [StronglyRecommend, LargeTradesOk];
      } else if score >= 600 {
        suggestions := [Recommend, SmallMediumTrades];
      } else {
        suggestions := [MayTry, SmallTestTrade, KeepEvidence];
      }
    } else {
      suggestions := Cautions;
    }
    if lastActiveDays > 30 {
      suggestions := suggestions + [InactiveFor(lastActiveDays)];
    }
  }

  /** `generate_trading_advice`. */
  method GenerateTradingAdvice(h: History, score: int) returns (advice: Advice)
    ensures advice.recommended <==> score >= 500 && !LowCompletionRate(h) && !HighDisputeRate(h)
    ensures 10 <= advice.confidence <= 95
    ensures advice.confidence == Clamp(10, 95, Trunc(RawAdviceConfidence(h, score)))
    ensures advice.reasons == AdviceReasonList(h, score)
    ensures advice.reasons[0] == ScoreReason(score)
    ensures advice.suggestions == Suggestions(advice.recommended, score, h.lastActiveDays)
    ensures |advice.suggestions| >= 2
    ensures !advice.recommended ==> |advice.suggestions| >= 4 && advice.suggestions[..4] == Cautions
    ensures advice.recommended ==>
      advice.suggestions[0] == (if score >= 800 then StronglyRecommend else if score >= 600 then Recommend else MayTry)
    ensures h.lastActiveDays > 30 <==> advice.suggestions[|advice.suggestions| - 1] == InactiveFor(h.lastActiveDays)
  {
    var recommended, confidence, reasons := AdviceReasons(h, score);
    var suggestions := AdviceSuggestions(recommended, score, h.lastActiveDays);
    advice := Advice(recommended, Clamp(10, 95, Trunc(confidence)), reasons, suggestions);
  }

  /** The advice's confidence is not monotone in the score: with an
      unremarkable history every score from 600 to 699 gets a higher
      confidence than 700 does (at least 75 against 60). */
  lemma AdviceConfidenceDropsAt700(h: History, score: int)
    requires 600 <= score <= 699
    requires 10 <= h.totalTransactions <= 50
    requires !LowCompletionRate(h) && !HighDisputeRate(h)
    ensures Clamp(10, 95, Trunc(RawAdviceConfidence(h, 700))) == 60
    ensures Clamp(10, 95, Trunc(RawAdviceConfidence(h, score))) >= 75
  {
    assert RawAdviceConfidence(h, 700) == 60.0;
    TruncOfInt(60);
    assert RawAdviceConfidence(h, score) >= 75.0;
    TruncOfInt(75);
    TruncMonotone(75.0, RawAdviceConfidence(h, score));
  }

  // ---------------------------------------------------------------------
  // Comparing two users

  datatype UserCredit = UserCredit(address: string, score: int, level: string)

  datatype Comparison = Comparison(
    user1: UserCredit,
    user2: UserCredit,
    scoreDiff: nat,
    betterUser: string,
    recommendation: string)

  const User1Better: string := "用户1更可信"
  const User2Better: string := "用户2更可信"
  const Comparable: string := "两者信用相当"

  /** The comparison part of `compare_users`. */
  function Compare(u1: UserCredit, u2: UserCredit): (c: Comparison)
    ensures c.user1 == u1 && c.user2 == u2
    ensures c.scoreDiff as int == u1.score - u2.score || c.scoreDiff as int == u2.score - u1.score
    ensures u1.score > u2.score ==> c.betterUser == u1.address && c.recommendation == User1Better
    ensures u2.score > u1.score ==> c.betterUser == u2.address && c.recommendation == User2Better
    ensures u1.score == u2.score ==> c.betterUser == u2.address && c.recommendation == Comparable
  {
    Comparison(
      u1, u2,
      Abs(u1.score - u2.score),
      if u1.score > u2.score then u1.address else u2.address,
      if u1.score > u2.score then User1Better else if u2.score > u1.score then User2Better else Comparable)
  }

  /** The score difference does not depend on the order of the two users. */
  lemma CompareDiffSymmetric(u1: UserCredit, u2: UserCredit)
    ensures Compare(u1, u2).scoreDiff == Compare(u2, u1).scoreDiff
    ensures u1.score != u2.score ==> Compare(u1, u2).betterUser == Compare(u2, u1).betterUser
  {
  }

  /** `compare_users` given both histories: both addresses are required. */
  method CompareUsers(address1: string, h1: History, address2: string, h2: History)
    returns (r: Result<Comparison>)
    ensures address1 == "" || address2 == "" <==> r.Err?
    ensures r.Ok? ==>
      r.value.user1.score == CreditScore(h1) && r.value.user2.score == CreditScore(h2)
      && r.value.user1.address == address1 && r.value.user2.address == address2
      && r.value.scoreDiff == Abs(CreditScore(h1) - CreditScore(h2))
    ensures r.Ok? ==> r.value == Compare(r.value.user1, r.value.user2)
    ensures r.Ok? ==> forall i :: 0 <= i < |CreditLevels| ==>
      (InBand(CreditLevels[i], CreditScore(h1)) ==> r.value.user1.level == CreditLevels[i].name)
      && (InBand(CreditLevels[i], CreditScore(h2)) ==> r.value.user2.level == CreditLevels[i].name)
  {
    if address1 == "" || address2 == "" {
      return Err("需要提供两个地址");
    }
    var score1 := CalculateCreditScore(h1);
    var key1, name1, color1 := GetCreditLevel(score1);
    var score2 := CalculateCreditScore(h2);
    var key2, name2, color2 := GetCreditLevel(score2);
    r := Ok(Compare(UserCredit(address1, score1, name1), UserCredit(address2, score2, name2)));
  }
}
