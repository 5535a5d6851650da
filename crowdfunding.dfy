/**
 * The crowdfunding page: it binds the campaign contract only when code exists at its
 * address, fetches every campaign, and renders one card per campaign with its progress,
 * its patron count and the days left.
 */
module CrowdFunding {
  import opened Wrappers
  import opened Arith
  import opened Chain

  /** A campaign as the contract returns it; amounts in wei, times in Unix seconds. */
  datatype Campaign = Campaign(
    id: nat,
    title: string,
    description: string,
    imageURI: string,
    goal: nat,
    startsAt: nat,
    endsAt: nat,
    status: nat,
    totalContributions: nat,
    contributors: seq<string>,
    contributionAmounts: seq<nat>)

  const SecondsPerDay: nat := 86400

  class Page {
    /** Whether both `provider` and `signer` are set. */
    var walletReady: bool
    /** Whether `contract` is set. */
    var contractBound: bool
    var campaigns: seq<Campaign>

    constructor ()
      ensures !walletReady && !contractBound && campaigns == []
    {
      walletReady, contractBound, campaigns := false, false, [];
    }

    /** The effect that binds the contract and fetches the campaigns. `code` is None when
        `getCode` throws and `fetched` is None when `getAllCamapigns` throws; both are caught. */
    method InitializeContract(code: Option<string>, fetched: Option<seq<Campaign>>)
      modifies this
      ensures !(old(walletReady) && HasCode(code)) ==>
        contractBound == old(contractBound) && campaigns == old(campaigns)
      ensures old(walletReady) && HasCode(code) ==>
        contractBound && campaigns == (if fetched.Some? then fetched.value else old(campaigns))
      ensures walletReady == old(walletReady)
    {
      if !walletReady {
        return;
      }
      if !HasCode(code) {
        return;
      }
      contractBound := true;
      if fetched.Some? {
        campaigns := fetched.value;
      }
    }
  }

  /** `Number(totalContributions / goal)`: the bigint quotient, truncated. A zero goal makes
      the division throw, so a card can only be rendered for a positive goal. */
  function Progress(totalContributions: nat, goal: nat): (p: nat)
    requires goal > 0
    ensures p * goal <= totalContributions < (p + 1) * goal
    ensures p == 0 <==> totalContributions < goal
  {
    totalContributions / goal
  }

  /** The percentage of the goal raised, which is what a bar width in percent calls for. */
  function ProgressPercent(totalContributions: nat, goal: nat): (p: nat)
    requires goal > 0
    ensures p * goal <= 100 * totalContributions < (p + 1) * goal
    ensures p >= 100 <==> totalContributions >= goal
  {
    var p := 100 * totalContributions / goal;
    QuotientBounds(100 * totalContributions, goal);
    PercentReachesHundred(totalContributions, goal);
    p
  }

  lemma PercentReachesHundred(t: nat, goal: nat)
    requires goal > 0
    ensures 100 * t / goal >= 100 <==> t >= goal
  {
    var p := 100 * t / goal;
    QuotientBounds(100 * t, goal);
    if t >= goal {
      MulMonotone(goal, t, 100);
      assert p * goal > 99 * goal;
      MulCancel(p, 99, goal);
    } else {
      MulMonotone(t + 1, goal, 100);
      if p >= 100 {
        MulMonotone(100, p, goal);
      }
    }
  }

  /** The bar as written: it is empty until the goal is met and then only 1% wide, where the
      percentage is 0% only for nothing raised and 100% at the goal. */
  lemma ProgressBarIsNotAPercentage(goal: nat)
    requires goal > 1
    ensures Progress(goal - 1, goal) == 0 && ProgressPercent(goal - 1, goal) >= 50
    ensures Progress(goal, goal) == 1 && ProgressPercent(goal, goal) == 100
  {
    QuotientIs(goal - 1, goal, 0);
    QuotientAtLeast(100 * (goal - 1), goal, 50);
    QuotientIs(goal, goal, 1);
    QuotientIs(100 * goal, goal, 100);
  }

  /** `Math.floor(Date.now() / 1000)`. */
  function NowSeconds(nowMs: int): (s: int)
    ensures s * 1000 <= nowMs < s * 1000 + 1000
  {
    nowMs / 1000
  }

  /** `Math.floor((endsAt - now) / 86400)`: whole days to the end, negative once it passed. */
  function DaysLeft(endsAt: nat, nowMs: int): (d: int)
    ensures d * SecondsPerDay <= endsAt - NowSeconds(nowMs) < d * SecondsPerDay + SecondsPerDay
    ensures d < 0 <==> endsAt < NowSeconds(nowMs)
  {
    (endsAt - NowSeconds(nowMs)) / SecondsPerDay
  }

  datatype CampaignCard = CampaignCard(key: nat, title: string, barWidth: nat, patrons: nat, daysLeft: int)

  /** One card per campaign, in order, keyed by the campaign id. */
  function Cards(campaigns: seq<Campaign>, nowMs: int): (cards: seq<CampaignCard>)
    requires forall i :: 0 <= i < |campaigns| ==> campaigns[i].goal > 0
    ensures |cards| == |campaigns|
    ensures forall i :: 0 <= i < |campaigns| ==>
      && cards[i].key == campaigns[i].id
      && cards[i].title == campaigns[i].title
      && cards[i].patrons == |campaigns[i].contributors|
      && cards[i].daysLeft == DaysLeft(campaigns[i].endsAt, nowMs)
      && cards[i].barWidth == Progress(campaigns[i].totalContributions, campaigns[i].goal)
  {
    seq(|campaigns|, i requires 0 <= i < |campaigns| =>
      CampaignCard(campaigns[i].id, campaigns[i].title,
                   Progress(campaigns[i].totalContributions, campaigns[i].goal),
                   |campaigns[i].contributors|, DaysLeft(campaigns[i].endsAt, nowMs)))
  }

  /** The card list with the bar drawn as the percentage raised: the same cards, except that
      a bar is full exactly for a campaign that has met its goal. */
  function IntendedCards(campaigns: seq<Campaign>, nowMs: int): (cards: seq<CampaignCard>)
    requires forall i :: 0 <= i < |campaigns| ==> campaigns[i].goal > 0
    ensures |cards| == |campaigns|
    ensures forall i :: 0 <= i < |campaigns| ==>
      && cards[i] == Cards(campaigns, nowMs)[i].(barWidth := cards[i].barWidth)
      && cards[i].barWidth == ProgressPercent(campaigns[i].totalContributions, campaigns[i].goal)
      && (cards[i].barWidth >= 100 <==> campaigns[i].totalContributions >= campaigns[i].goal)
  {
    var drawn := Cards(campaigns, nowMs);
    seq(|campaigns|, i requires 0 <= i < |campaigns| =>
      drawn[i].(barWidth := ProgressPercent(campaigns[i].totalContributions, campaigns[i].goal)))
  }
}
