/** The plan-selection logic of the subscription screen
    (src/Pages/Suscriptions.js): the mapping of the backend's subscription tier
    to a plan id, the one mutable slot `selectedPlan` and its guard, the
    upgrade/downgrade flags, the outcome of "continue", the button label, and
    the conditions that disable or show controls. Alerts and console lines are
    returned as `Effect` values instead of being performed. */
module Subscriptions {

  import opened Js

  /** Plan ids come from the plan catalog, which is not part of this model;
      they are opaque strings. */
  type PlanId = string

  /** The part of the user record the screen reads. */
  datatype User = User(tipoSuscripcion: Value)

  /** `{ id, isActive }` as built by `mapUserPlan`. A missing id is `null`. */
  datatype CurrentPlan = CurrentPlan(id: Option<PlanId>, isActive: bool)

  /** What the screen asks the platform to do. */
  datatype Effect =
    | Alert(title: string, message: string)
    | Confirm(title: string, message: string, dismissLabel: string, confirmLabel: string)
    | Log(text: string)

  /** `planMapping[tipo] || null`: the lookup converts `tipo` to a property key
      (a string), so only the keys "Basico" and "Premium" give a plan id. A key
      that names a property inherited from Object.prototype ("toString",
      "constructor", "__proto__", ...) yields a function or, for "__proto__",
      the object Object.prototype: truthy, but equal to no plan id;
      every comparison the screen makes treats it as it treats `null`, so it
      is `None` here as well. */
  function PlanFor(tipo: Value): (r: Option<PlanId>)
    ensures r == Some("basic") <==> TemplateString(tipo) == "Basico"
    ensures r == Some("premium") <==> TemplateString(tipo) == "Premium"
    ensures r.None? <==> TemplateString(tipo) != "Basico" && TemplateString(tipo) != "Premium"
  {
    var key := TemplateString(tipo);
    if key == "Basico" then Some("basic")
    else if key == "Premium" then Some("premium")
    else None
  }

  /** `mapUserPlan()`: no user gives `null`; otherwise the mapped id and
      `isActive: true`. */
  function MapUserPlan(user: Option<User>): (r: Option<CurrentPlan>)
    ensures r.None? <==> user.None?
    ensures r.Some? ==> r.value.isActive
    ensures r.Some? ==> r.value.id == PlanFor(user.value.tipoSuscripcion)
  {
    match user
    case None => None
    case Some(u) => Some(CurrentPlan(PlanFor(u.tipoSuscripcion), true))
  }

  /** The tiers the backend sends map as the screen expects. */
  lemma TierMapping()
    ensures MapUserPlan(None) == None
    ensures MapUserPlan(Some(User(Str("Basico")))) == Some(CurrentPlan(Some("basic"), true))
    ensures MapUserPlan(Some(User(Str("Premium")))) == Some(CurrentPlan(Some("premium"), true))
    ensures forall t: string | t != "Basico" && t != "Premium" ::
      MapUserPlan(Some(User(Str(t)))) == Some(CurrentPlan(None, true))
  {
  }

  /** `userCurrentPlan?.id`: `undefined` without a user and `null` for an
      unknown tier; both are `None`, since neither equals any plan id. */
  function CurrentId(current: Option<CurrentPlan>): (r: Option<PlanId>)
    ensures r.Some? ==> current.Some? && current.value.id == r
  {
    match current
    case None => None
    case Some(c) => c.id
  }

  /** The truth of `selectedPlan`: `null` and the empty id are both falsy. */
  predicate HasSelection(selected: Option<PlanId>)
  {
    selected.Some? && selected.value != ""
  }

  // ---------------------------------------------------------------- the selection slot

  /** What `selectedPlan` may hold: never the current plan's id. */
  ghost predicate SelectionInvariant(currentId: Option<PlanId>, selected: Option<PlanId>)
  {
    selected.Some? ==> selected != currentId
  }

  /** The value `handleSelectPlan(planId)` leaves in `selectedPlan`. */
  function SelectPlan(currentId: Option<PlanId>, selected: Option<PlanId>, planId: PlanId): (r: Option<PlanId>)
    ensures currentId == Some(planId) ==> r == selected
    ensures currentId != Some(planId) ==> r == Some(planId)
    ensures SelectionInvariant(currentId, selected) ==> SelectionInvariant(currentId, r)
  {
    if currentId == Some(planId) then selected else Some(planId)
  }

  /** Pressing the same card twice is the same as pressing it once, and a later
      press on another card overrides an earlier one. */
  lemma SelectPlanIdempotentAndLastWins(currentId: Option<PlanId>, selected: Option<PlanId>, p: PlanId, q: PlanId)
    ensures SelectPlan(currentId, SelectPlan(currentId, selected, p), p) == SelectPlan(currentId, selected, p)
    ensures currentId != Some(q) ==> SelectPlan(currentId, SelectPlan(currentId, selected, p), q) == Some(q)
  {
  }

  /** `selectedPlan` after the screen starts with `null` and the user presses
      the plan cards `presses` in order. */
  function AfterPresses(currentId: Option<PlanId>, presses: seq<PlanId>): Option<PlanId>
  {
    if presses == [] then None
    else SelectPlan(currentId, AfterPresses(currentId, presses[..|presses| - 1]), presses[|presses| - 1])
  }

  /** Whatever the presses, the slot holds `null` exactly when every press was
      on the current plan, and otherwise the last press on another plan; in
      particular it never holds the current plan's id. */
  lemma {:induction false} AfterPressesIsLastOtherPlan(currentId: Option<PlanId>, presses: seq<PlanId>)
    ensures SelectionInvariant(currentId, AfterPresses(currentId, presses))
    ensures AfterPresses(currentId, presses).None? <==>
      forall i | 0 <= i < |presses| :: Some(presses[i]) == currentId
    ensures AfterPresses(currentId, presses).Some? ==>
      exists k | 0 <= k < |presses| ::
        && Some(presses[k]) == AfterPresses(currentId, presses)
        && Some(presses[k]) != currentId
        && forall j | k < j < |presses| :: Some(presses[j]) == currentId
  {
    if presses != [] {
      var init := presses[..|presses| - 1];
      var last := |presses| - 1;
      AfterPressesIsLastOtherPlan(currentId, init);
      assert forall i | 0 <= i < last :: init[i] == presses[i];
      if Some(presses[last]) == currentId && AfterPresses(currentId, init).Some? {
        var k :| 0 <= k < |init| && Some(init[k]) == AfterPresses(currentId, init) && Some(init[k]) != currentId
          && forall j | k < j < |init| :: Some(init[j]) == currentId;
        assert Some(presses[k]) == AfterPresses(currentId, presses);
      }
    }
  }

  /** The screen's state: the current plan, fixed by the route parameters, and
      the `useState` slot `selectedPlan`, which only `HandleSelectPlan` writes. */
  class SubscriptionScreen {
    const current: Option<CurrentPlan>
    var selectedPlan: Option<PlanId>

    ghost predicate Valid()
      reads this
    {
      SelectionInvariant(CurrentId(current), selectedPlan)
    }

    /** `useState(null)`, with the current plan mapped from the route's user. */
    constructor (user: Option<User>)
      ensures current == MapUserPlan(user)
      ensures selectedPlan == None
      ensures Valid()
    {
      current := MapUserPlan(user);
      selectedPlan := None;
    }

    /** `handleSelectPlan`: pressing the current plan's card does nothing;
        pressing any other card makes it the selection. */
    method HandleSelectPlan(planId: PlanId)
      requires Valid()
      modifies this
      ensures Valid()
      ensures selectedPlan == SelectPlan(CurrentId(current), old(selectedPlan), planId)
      ensures CurrentId(current) == Some(planId) ==> selectedPlan == old(selectedPlan)
      ensures CurrentId(current) != Some(planId) ==> selectedPlan == Some(planId)
    {
      if CurrentId(current) == Some(planId) {
        return;
      }
      selectedPlan := Some(planId);
    }
  }

  // ---------------------------------------------------------------- flags and outcomes

  /** `isUpgradingToPremium` */
  predicate IsUpgradingToPremium(currentId: Option<PlanId>, selected: Option<PlanId>)
  {
    currentId == Some("basic") && selected == Some("premium")
  }

  /** `isDowngradingToBasic` */
  predicate IsDowngradingToBasic(currentId: Option<PlanId>, selected: Option<PlanId>)
  {
    currentId == Some("premium") && selected == Some("basic")
  }

  /** At most one flag holds, either implies a selection, and neither can
      name the current plan. */
  lemma FlagsExclusive(currentId: Option<PlanId>, selected: Option<PlanId>)
    ensures !(IsUpgradingToPremium(currentId, selected) && IsDowngradingToBasic(currentId, selected))
    ensures IsUpgradingToPremium(currentId, selected) || IsDowngradingToBasic(currentId, selected)
      ==> HasSelection(selected) && SelectionInvariant(currentId, selected)
  {
  }

  /** The branch `handleContinue` takes. */
  datatype ContinueOutcome =
    | SelectionRequired
    | ToPremium
    | BackToBasic
    | NewSelection(plan: PlanId)

  /** `handleContinue`: no selection first, then upgrade, then downgrade, and
      any other selection last. */
  function HandleContinue(currentId: Option<PlanId>, selected: Option<PlanId>): (r: ContinueOutcome)
    ensures r == SelectionRequired <==> !HasSelection(selected)
    ensures r == ToPremium <==> IsUpgradingToPremium(currentId, selected)
    ensures r == BackToBasic <==> IsDowngradingToBasic(currentId, selected)
    ensures r.NewSelection? <==>
      HasSelection(selected) && !IsUpgradingToPremium(currentId, selected) && !IsDowngradingToBasic(currentId, selected)
    ensures r.NewSelection? ==> selected == Some(r.plan) && r.plan != ""
  {
    if !HasSelection(selected) then SelectionRequired
    else if IsUpgradingToPremium(currentId, selected) then ToPremium
    else if IsDowngradingToBasic(currentId, selected) then BackToBasic
    else NewSelection(selected.value)
  }

  /** The console lines and alert each branch of `handleContinue` produces. */
  function ContinueEffects(outcome: ContinueOutcome): (r: seq<Effect>)
    ensures |r| >= 1 && r[|r| - 1].Alert?
    ensures forall i | 0 <= i < |r| - 1 :: r[i].Log?
    ensures |r| == 1 <==> outcome == SelectionRequired
    ensures outcome == SelectionRequired ==> r[0].title == "Selección requerida"
    ensures r[|r| - 1].title == "Cambio de plan" <==> outcome in {ToPremium, BackToBasic}
    ensures outcome == ToPremium ==> r[|r| - 1].message == "Has cambiado al plan Premium exitosamente"
    ensures outcome == BackToBasic ==> r[|r| - 1].message == "Has vuelto al plan Básico exitosamente"
    ensures outcome.NewSelection? ==> r[|r| - 1].title == "Nueva selección"
    ensures outcome.NewSelection? ==> r[|r| - 1].message == "Has seleccionado el plan " + outcome.plan
  {
    match outcome
    case SelectionRequired =>
      [Alert("Selección requerida", "Por favor selecciona un plan para continuar")]
    case ToPremium =>
      [Log("Actualizando de plan básico a premium"),
       Alert("Cambio de plan", "Has cambiado al plan Premium exitosamente")]
    case BackToBasic =>
      [Log("Volviendo al plan básico"),
       Alert("Cambio de plan", "Has vuelto al plan Básico exitosamente")]
    case NewSelection(plan) =>
      [Log("Seleccionando nuevo plan: " + plan),
       Alert("Nueva selección", "Has seleccionado el plan " + plan)]
  }

  /** The final alert tells every branch apart, and a new selection's alert
      names exactly the selected plan. */
  lemma {:induction false} ContinueAlertsDistinct(o1: ContinueOutcome, o2: ContinueOutcome)
    requires ContinueEffects(o1)[|ContinueEffects(o1)| - 1] == ContinueEffects(o2)[|ContinueEffects(o2)| - 1]
    ensures o1 == o2
  {
    if o1.NewSelection? && o2.NewSelection? {
      var prefix := "Has seleccionado el plan ";
      var m1, m2 := prefix + o1.plan, prefix + o2.plan;
      assert m1 == m2;
      assert o1.plan == m1[|prefix|..];
      assert o2.plan == m2[|prefix|..];
    }
  }

  /** While the slot keeps its invariant, "continue" never reports the
      current plan as a new selection; with the two catalog ids "basic" and
      "premium" as the only plans, a selection always is an upgrade or a
      downgrade. */
  lemma ContinueNeverNamesCurrentPlan(currentId: Option<PlanId>, selected: Option<PlanId>)
    requires SelectionInvariant(currentId, selected)
    ensures HandleContinue(currentId, selected).NewSelection? ==>
      Some(HandleContinue(currentId, selected).plan) != currentId
    ensures currentId in {Some("basic"), Some("premium")} && selected in {Some("basic"), Some("premium")} ==>
      HandleContinue(currentId, selected) in {ToPremium, BackToBasic}
  {
  }

  /** `getButtonText`, written with the same precedence as `handleContinue`. */
  function ButtonText(currentId: Option<PlanId>, selected: Option<PlanId>): string
  {
    if !HasSelection(selected) then "Selecciona un plan"
    else if IsUpgradingToPremium(currentId, selected) then "Cambiar a Premium"
    else if IsDowngradingToBasic(currentId, selected) then "Volver a plan Básico"
    else "Continuar"
  }

  /** The label announcing each branch of `handleContinue`. */
  function LabelFor(outcome: ContinueOutcome): string
  {
    match outcome
    case SelectionRequired => "Selecciona un plan"
    case ToPremium => "Cambiar a Premium"
    case BackToBasic => "Volver a plan Básico"
    case NewSelection(_) => "Continuar"
  }

  /** The button always announces the branch pressing it would take, and
      different kinds of branch get different labels. */
  lemma ButtonTextMatchesContinue(currentId: Option<PlanId>, selected: Option<PlanId>)
    ensures ButtonText(currentId, selected) == LabelFor(HandleContinue(currentId, selected))
    ensures forall o1: ContinueOutcome, o2: ContinueOutcome | LabelFor(o1) == LabelFor(o2) ::
      o1.NewSelection? == o2.NewSelection? && (!o1.NewSelection? ==> o1 == o2)
  {
  }

  // ---------------------------------------------------------------- disabled and visible controls

  /** `disabled={!selectedPlan}` on the continue button. */
  predicate ContinueDisabled(selected: Option<PlanId>)
  {
    !HasSelection(selected)
  }

  /** `disabled={userCurrentPlan?.id === plan.id}` on a plan card. */
  predicate PlanCardDisabled(currentId: Option<PlanId>, planId: PlanId)
  {
    currentId == Some(planId)
  }

  /** `userCurrentPlan?.id === "premium" && userCurrentPlan.isActive` */
  predicate CancelVisible(current: Option<CurrentPlan>)
  {
    CurrentId(current) == Some("premium") && current.value.isActive
  }

  /** The continue button is disabled exactly when its label asks for a
      selection, so the "Selección requerida" branch of `handleContinue`
      cannot be reached from the button. */
  lemma ContinueButtonAgrees(currentId: Option<PlanId>, selected: Option<PlanId>)
    ensures ContinueDisabled(selected) <==> HandleContinue(currentId, selected) == SelectionRequired
    ensures ContinueDisabled(selected) <==> ButtonText(currentId, selected) == "Selecciona un plan"
  {
  }

  /** The card of the selected plan is never disabled, and the guard in
      `handleSelectPlan` repeats the card's `disabled` condition: pressing a
      disabled card would leave the slot unchanged. */
  lemma PlanCardGuard(currentId: Option<PlanId>, selected: Option<PlanId>, planId: PlanId)
    requires SelectionInvariant(currentId, selected)
    ensures selected == Some(planId) ==> !PlanCardDisabled(currentId, planId)
    ensures PlanCardDisabled(currentId, planId) ==> SelectPlan(currentId, selected, planId) == selected
  {
  }

  /** Since `isActive` is always true, the cancel button shows exactly for a
      user whose tier maps to premium. */
  lemma CancelVisibleIffPremium(user: Option<User>)
    ensures CancelVisible(MapUserPlan(user)) <==>
      user.Some? && TemplateString(user.value.tipoSuscripcion) == "Premium"
  {
  }

  // ---------------------------------------------------------------- cancellation

  /** The confirmation dialog `handleCancelSubscription` opens. */
  const CancelDialog := Confirm(
    "Cancelar suscripción",
    "¿Estás seguro de que deseas cancelar tu suscripción Premium?",
    "No", "Sí, cancelar")

  /** What confirming the dialog does: a console line and an alert. It calls
      no service and leaves the screen's state as it was. */
  const CancelConfirmedEffects := [
    Log("Cancelando suscripción premium"),
    Alert("Suscripción cancelada", "Tu suscripción ha sido cancelada")]
}
