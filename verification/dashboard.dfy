/**
  The dashboard page's side of spending: the cost table, the rule that disables a
  feature's button, reading the balance into the page, and `handleFeatureUse`, which
  checks the page's cached balance, overwrites the stored balance with the cached value
  minus the cost, and then records the spend.

  The page's component state (`credits`, `processingFeature`) lives in `DashboardPage`;
  `FeatureUse` and `Fetched` give the same steps as values.
*/
module Dashboard {
  import opened Wrappers
  import opened Ledger

  datatype Feature = Feature(title: string, credits: int, redirectPath: Option<string>)

  /** The three feature cards, in display order. */
  function Features(): (fs: seq<Feature>)
    ensures forall i :: 0 <= i < |fs| ==> fs[i].credits > 0
    ensures forall i, j :: 0 <= i < j < |fs| ==> fs[i].title != fs[j].title
    ensures forall i :: 0 <= i < |fs| ==> (fs[i].redirectPath.Some? <==> fs[i].title == "AI Image Generation")
  {
    [ Feature("AI Image Generation", 10, Some("/ai-image-generation")),
      Feature("AI Image Enhancer", 10, None),
      Feature("AI Watermark Remover", 20, None) ]
  }

  /** A feature's button is disabled while that feature is processing or the page's balance is below its cost. */
  predicate ButtonDisabled(f: Feature, processingFeature: Option<string>, credits: int): (disabled: bool)
    ensures !disabled ==> credits - f.credits >= 0 && processingFeature != Some(f.title)
    ensures credits < f.credits ==> disabled
  {
    processingFeature == Some(f.title) || credits < f.credits
  }

  /** The component state that spending reads and sets. */
  datatype View = View(credits: int, processingFeature: Option<string>)

  /** What the page does once `handleFeatureUse` returns. */
  datatype Next =
    | Navigate(path: string)     // to the feature's own page
    | ScheduleCompletion         // a timer that later announces completion and clears `processingFeature`
    | Stay

  datatype UseOutcome = UseOutcome(view: View, after: State, next: Next)

  /** The balance the page shows for a credits row: a missing row, a null and 0 all show as 0. */
  function ShownBalance(balances: map<UserId, Option<int>>, user: UserId): (shown: int)
    ensures shown == 0 <==> user !in balances || balances[user] == None || balances[user] == Some(0)
    ensures shown != 0 ==> balances[user] == Some(shown)
  {
    if user in balances && balances[user].Some? && balances[user].value != 0 then balances[user].value else 0
  }

  /** `fetchUserCredits`: a failed read is only reported, and the page keeps what it showed. */
  function Fetched(v: View, s: State, user: UserId, readFails: bool): (w: View)
    ensures w.processingFeature == v.processingFeature
    ensures readFails ==> w == v
    ensures !readFails && user in s.balances && s.balances[user].Some? ==> w.credits == s.balances[user].value
  {
    if readFails then v else v.(credits := ShownBalance(s.balances, user))
  }

  /** `handleFeatureUse` as a value: the page state, the backend state and what happens next. */
  function FeatureUse(v: View, s: State, user: UserId, name: string, cost: int, redirectPath: Option<string>,
                      updateOk: bool, insertOk: bool): (o: UseOutcome)
    ensures s.transactions <= o.after.transactions && |o.after.transactions| <= |s.transactions| + 1
    ensures o.after.generations == s.generations && o.after.balances.Keys == s.balances.Keys
    ensures forall u :: u in s.balances && u != user ==> o.after.balances[u] == s.balances[u]
    ensures o.view.credits != v.credits ==> o.view.credits == v.credits - cost && o.next != Stay
  {
    var processing := View(v.credits, Some(name));
    if v.credits < cost then UseOutcome(processing, s, Stay)
    else
      var s1 := s.Updated(user, v.credits - cost, updateOk);
      if !updateOk then UseOutcome(View(v.credits, None), s1, Stay)
      else
        var s2 := s1.WithTransaction(TransactionRow(user, cost, name), insertOk);
        if !insertOk then UseOutcome(View(v.credits, None), s2, Stay)
        else
          UseOutcome(View(v.credits - cost, Some(name)), s2,
                     if Truthy(redirectPath) then Navigate(redirectPath.value) else ScheduleCompletion)
  }

  /** The signed-in dashboard page and the backend it talks to. */
  class DashboardPage {
    const user: UserId
    const backend: Backend
    var credits: int
    var processingFeature: Option<string>

    function CurrentView(): View
      reads this
    {
      View(credits, processingFeature)
    }

    /** The page starts with 0 credits and no feature processing. */
    constructor (user: UserId, backend: Backend)
      ensures this.user == user && this.backend == backend
      ensures CurrentView() == View(0, None)
    {
      this.user := user;
      this.backend := backend;
      credits := 0;
      processingFeature := None;
    }

    method FetchUserCredits(readFails: bool)
      modifies this
      ensures CurrentView() == Fetched(old(CurrentView()), backend.Snapshot(), user, readFails)
    {
      if readFails {
        return;
      }
      var row := if user in backend.balances then backend.balances[user] else None;
      credits := if row.Some? && row.value != 0 then row.value else 0;
    }

    method HandleFeatureUse(name: string, cost: int, redirectPath: Option<string>, updateOk: bool, insertOk: bool)
      returns (next: Next)
      modifies this, backend
      ensures UseOutcome(CurrentView(), backend.Snapshot(), next)
        == FeatureUse(old(CurrentView()), old(backend.Snapshot()), user, name, cost, redirectPath, updateOk, insertOk)
    {
      processingFeature := Some(name);
      next := Stay;
      if credits < cost {
        return;
      }
      backend.UpdateBalance(user, credits - cost, updateOk);
      if !updateOk {
        processingFeature := None;
        return;
      }
      backend.InsertTransactionRow(TransactionRow(user, cost, name), insertOk);
      if !insertOk {
        processingFeature := None;
        return;
      }
      credits := credits - cost;
      if redirectPath.Some? && redirectPath.value != "" {
        next := Navigate(redirectPath.value);
      } else {
        next := ScheduleCompletion;
      }
    }
  }

  // ---------------------------------------------------------------------------
  // Properties of the cost table and the button
  // ---------------------------------------------------------------------------

  /** The price list: 10, 10 and 20 credits; only image generation has a page of its own. */
  lemma FeaturePrices()
    ensures |Features()| == 3
    ensures Features()[0].title == "AI Image Generation" && Features()[0].credits == 10
    ensures Features()[1].title == "AI Image Enhancer" && Features()[1].credits == 10
    ensures Features()[2].title == "AI Watermark Remover" && Features()[2].credits == 20
    ensures Features()[0].redirectPath == Some("/ai-image-generation")
  {
  }

  /**
    A click on an enabled button always gets past the balance check and sends the
    update: the page's own early return for "insufficient credits" is never reached
    from a button the page lets the user press.
  */
  lemma EnabledButtonReachesBackend(f: Feature, v: View, s: State, user: UserId, updateOk: bool, insertOk: bool)
    requires !ButtonDisabled(f, v.processingFeature, v.credits)
    ensures var o := FeatureUse(v, s, user, f.title, f.credits, f.redirectPath, updateOk, insertOk);
      |o.after.effects| > |s.effects| && o.after.effects[|s.effects|] == UpdateCredits(user, v.credits - f.credits)
  {
  }

  /** While a feature's spend has succeeded and its completion is pending, its button stays disabled. */
  lemma ButtonDisabledAfterSuccess(f: Feature, v: View, s: State, user: UserId)
    requires v.credits >= f.credits
    ensures var o := FeatureUse(v, s, user, f.title, f.credits, f.redirectPath, true, true);
      ButtonDisabled(f, o.view.processingFeature, o.view.credits)
  {
  }

  // ---------------------------------------------------------------------------
  // Properties of spending
  // ---------------------------------------------------------------------------

  /**
    When the page's balance is below the cost nothing is sent and the balance shown is
    kept, but `processingFeature` is left naming the feature: this return does not clear it.
  */
  lemma InsufficientCreditsChangesNothing(v: View, s: State, user: UserId, name: string, cost: int,
                                          redirectPath: Option<string>, updateOk: bool, insertOk: bool)
    requires v.credits < cost
    ensures FeatureUse(v, s, user, name, cost, redirectPath, updateOk, insertOk)
      == UseOutcome(View(v.credits, Some(name)), s, Stay)
  {
  }

  /**
    A successful spend stores the page's cached balance minus the cost (not a fresh
    read), which is not negative; adds exactly one transaction row for the cost and
    feature; and lowers the page's balance by exactly the cost.
  */
  lemma FeatureUseSucceeds(v: View, s: State, user: UserId, name: string, cost: int, redirectPath: Option<string>)
    requires v.credits >= cost && user in s.balances
    ensures var o := FeatureUse(v, s, user, name, cost, redirectPath, true, true);
      o.after.balances == s.balances[user := Some(v.credits - cost)] && v.credits - cost >= 0 &&
      o.after.transactions == s.transactions + [TransactionRow(user, cost, name)] &&
      o.after.generations == s.generations &&
      o.view == View(v.credits - cost, Some(name)) &&
      o.next == (if Truthy(redirectPath) then Navigate(redirectPath.value) else ScheduleCompletion)
  {
  }

  /** A failed balance update stops the spend: no transaction row, the page's balance kept, `processingFeature` cleared. */
  lemma UpdateFailureChargesNothing(v: View, s: State, user: UserId, name: string, cost: int,
                                    redirectPath: Option<string>, insertOk: bool)
    requires v.credits >= cost
    ensures var o := FeatureUse(v, s, user, name, cost, redirectPath, false, insertOk);
      o.after.balances == s.balances && o.after.transactions == s.transactions &&
      o.view == View(v.credits, None) && o.next == Stay
  {
  }

  /**
    A failed transaction insert after a successful update leaves the stored balance
    debited with no row recording it, while the page keeps showing the old balance.
    With a cost above 0 this breaks "spent = initial − balance".
  */
  lemma InsertFailureLeavesUnrecordedDebit(v: View, s: State, user: UserId, name: string, cost: int,
                                           redirectPath: Option<string>)
    requires v.credits >= cost && cost > 0
    requires user in s.balances && s.balances[user] == Some(v.credits)
    ensures var o := FeatureUse(v, s, user, name, cost, redirectPath, true, false);
      o.after.balances == s.balances[user := Some(v.credits - cost)] &&
      o.after.transactions == s.transactions &&
      o.view == View(v.credits, None) &&
      !Corresponds(s, o.after)
  {
    var o := FeatureUse(v, s, user, name, cost, redirectPath, true, false);
    ReconcilesNoRow(s, o.after, user);
  }

  /**
    When the page's balance matches what is stored and the cost is positive, a spend
    keeps "spent = initial − balance" exactly unless the update lands and the insert fails.
  */
  lemma FeatureUseCorrespondence(v: View, s: State, user: UserId, name: string, cost: int,
                                 redirectPath: Option<string>, updateOk: bool, insertOk: bool)
    requires cost > 0 && user in s.balances && s.balances[user] == Some(v.credits)
    ensures Corresponds(s, FeatureUse(v, s, user, name, cost, redirectPath, updateOk, insertOk).after)
      <==> v.credits < cost || !updateOk || insertOk
  {
    var t := FeatureUse(v, s, user, name, cost, redirectPath, updateOk, insertOk).after;
    if v.credits >= cost && updateOk && insertOk {
      forall u ensures Reconciles(s, t, u) {
        ReconcilesOneRow(s, t, TransactionRow(user, cost, name), u);
      }
    } else if v.credits >= cost && updateOk {
      InsertFailureLeavesUnrecordedDebit(v, s, user, name, cost, redirectPath);
    } else {
      forall u ensures Reconciles(s, t, u) {
        ReconcilesNoRow(s, t, u);
      }
    }
  }

  /**
    The debit is computed from the page's cached balance: when that is stale, even a
    fully successful spend stores a balance that the new transaction row does not explain.
  */
  lemma StaleBalanceBreaksCorrespondence(v: View, s: State, user: UserId, name: string, cost: int,
                                         redirectPath: Option<string>)
    requires v.credits >= cost && cost > 0 && user in s.balances && s.balances[user] != Some(v.credits)
    ensures !Corresponds(s, FeatureUse(v, s, user, name, cost, redirectPath, true, true).after)
  {
    var t := FeatureUse(v, s, user, name, cost, redirectPath, true, true).after;
    ReconcilesOneRow(s, t, TransactionRow(user, cost, name), user);
  }

  /**
    With no credits row the update matches nothing and reports no error, so a positive
    spend is recorded as a transaction while no balance moves.
  */
  lemma MissingRowRecordsUnbackedSpend(v: View, s: State, user: UserId, name: string, cost: int,
                                       redirectPath: Option<string>)
    requires v.credits >= cost && cost > 0 && user !in s.balances
    ensures var o := FeatureUse(v, s, user, name, cost, redirectPath, true, true);
      o.after.balances == s.balances &&
      o.after.transactions == s.transactions + [TransactionRow(user, cost, name)] &&
      !Corresponds(s, o.after)
  {
    var t := FeatureUse(v, s, user, name, cost, redirectPath, true, true).after;
    ReconcilesOneRow(s, t, TransactionRow(user, cost, name), user);
  }

  /** The only balance a spend writes is the cached balance minus the cost, so stored balances stay non-negative. */
  lemma FeatureUseKeepsNonNegative(v: View, s: State, user: UserId, name: string, cost: int,
                                   redirectPath: Option<string>, updateOk: bool, insertOk: bool)
    requires NonNegative(s)
    ensures NonNegative(FeatureUse(v, s, user, name, cost, redirectPath, updateOk, insertOk).after)
  {
  }

  /** After a successful read the page shows the stored balance, or 0 for a missing row or null. */
  lemma FetchShowsStoredBalance(v: View, s: State, user: UserId)
    ensures var w := Fetched(v, s, user, false);
      w.processingFeature == v.processingFeature &&
      (w.credits == 0 || (user in s.balances && s.balances[user] == Some(w.credits))) &&
      (user in s.balances && s.balances[user].Some? ==> w.credits == s.balances[user].value)
  {
  }
}
