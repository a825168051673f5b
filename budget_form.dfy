/** The budget form, used both to add a budget and to edit an existing one. It
    offers the categories no other budget uses yet, checks that a category and
    an amount were given, and dispatches the record the reducer stores. The
    clock (for the id of a new budget) is an input. */
module BudgetForm {
  import opened Util
  import opened Text
  import opened Calendar
  import opened Records
  import opened AppReducer

  const FillCategoryAndAmount: string := "Please fill in category and budget amount"

  /** The categories offered before any custom entry. */
  const ExistingCategories: seq<string> :=
    ["Groceries", "Dining Out", "Rent", "Entertainment", "Transportation", "Education", "Shopping", "Healthcare"]

  /** The four controlled fields of the form, as typed. */
  datatype Fields = Fields(category: string, budgetAmount: string, spentAmount: string, customCategory: string)

  /** The fields after an added budget has been dispatched. */
  const EmptyFields: Fields := Fields("", "", "", "")

  /** A submission raises an alert, or builds a record whose budget is not a
      number, or dispatches one action; the last two carry the fields left in
      the form. */
  datatype Submission =
    | Alerted(alert: string)
    | NonNumericBudget(next: Fields)
    | Dispatched(action: Action, next: Fields)

  /** `state.budgets.map(b => b.category)`. */
  function UsedCategories(budgets: seq<Budget>): (r: seq<string>)
    ensures |r| == |budgets|
    ensures forall i :: 0 <= i < |budgets| ==> r[i] == budgets[i].category
  {
    seq(|budgets|, i requires 0 <= i < |budgets| => budgets[i].category)
  }

  /** The fixed list followed by the custom entry when one was typed. */
  function Candidates(custom: string): (r: seq<string>)
    ensures |r| <= |ExistingCategories| + 1
    ensures forall c :: c in r <==> c in ExistingCategories || (custom != "" && c == custom)
  {
    ExistingCategories + (if custom != "" then [custom] else [])
  }

  /** `availableCategories`: a category is offered when it is a candidate that no
      budget uses yet, or the category of the budget being edited. */
  function AvailableCategories(budgets: seq<Budget>, custom: string, editing: Option<Budget>): (r: seq<string>)
    ensures |r| <= |ExistingCategories| + 1
    ensures forall c :: c in r <==>
      (c in ExistingCategories || (custom != "" && c == custom))
      && (c !in UsedCategories(budgets) || (editing.Some? && c == editing.value.category))
  {
    var used := UsedCategories(budgets);
    Filter(Candidates(custom), (c: string) => c !in used || (editing.Some? && c == editing.value.category))
  }

  /** A fixed category used by some budget is offered only while that budget
      itself is the one being edited; the edited budget's own category stays
      offered when it is a candidate. */
  lemma {:induction false} UsedCategoryHidden(budgets: seq<Budget>, custom: string, editing: Option<Budget>, i: int)
    requires 0 <= i < |budgets|
    ensures (editing.None? || editing.value.category != budgets[i].category)
      ==> budgets[i].category !in AvailableCategories(budgets, custom, editing)
    ensures editing.Some? && editing.value.category in Candidates(custom)
      ==> editing.value.category in AvailableCategories(budgets, custom, editing)
  {
    assert UsedCategories(budgets)[i] == budgets[i].category;
  }

  /** `parseFloat(spentAmount) || 0`: an empty or non-numeric entry counts as 0. */
  function SpentOf(spentAmount: string): (r: real)
    ensures !IsNumeric(spentAmount) ==> r == 0.0
    ensures IsNumeric(spentAmount) ==> r == ParseFloat(spentAmount).value
  {
    match ParseFloat(spentAmount)
    case Some(x) => x
    case None => 0.0
  }

  /** The record an `ADD_BUDGET` or `UPDATE_BUDGET` action carries. */
  function BudgetPayload(a: Action): BudgetInput {
    match a
    case AddBudget(input) => input
    case UpdateBudget(input) => input
    case _ => BudgetInput(0, "", 0.0, 0.0)
  }

  /** `handleSubmit`, given the budget being edited, if any. */
  function Submit(f: Fields, editing: Option<Budget>, now: Clock): (s: Submission)
    ensures s.Alerted? <==> f.category == "" || f.budgetAmount == ""
    ensures s.Alerted? ==> s.alert == FillCategoryAndAmount
    ensures s.NonNumericBudget? <==> f.category != "" && f.budgetAmount != "" && !IsNumeric(f.budgetAmount)
    ensures !s.Alerted? ==> s.next == if editing.Some? then f else EmptyFields
    ensures s.Dispatched? ==>
      var input := BudgetPayload(s.action);
      && (editing.Some? ==> s.action.UpdateBudget? && input.id == editing.value.id)
      && (editing.None? ==> s.action.AddBudget? && input.id == now.millis)
      && input.category == f.category
      && input.budget == ParseFloat(f.budgetAmount).value
      && input.spent == SpentOf(f.spentAmount)
  {
    if f.category == "" || f.budgetAmount == "" then Alerted(FillCategoryAndAmount)
    else
      var next := if editing.Some? then f else EmptyFields;
      match ParseFloat(f.budgetAmount)
      case None => NonNumericBudget(next)
      case Some(amount) =>
        var id := if editing.Some? then editing.value.id else now.millis;
        var input := BudgetInput(id, f.category, SpentOf(f.spentAmount), amount);
        Dispatched(if editing.Some? then UpdateBudget(input) else AddBudget(input), next)
  }

  /** Editing the budget at index `i` replaces that budget by the form's record,
      keeping its id, and leaves every budget with another id untouched. */
  lemma EditReplacesInPlace(f: Fields, s: State, env: Env, i: int, j: int)
    requires ValidClock(env.now) && 0 <= i < |s.budgets| && 0 <= j < |s.budgets|
    requires Submit(f, Some(s.budgets[i]), env.now).Dispatched?
    ensures var r := Reduce(s, Submit(f, Some(s.budgets[i]), env.now).action, env);
      && |r.budgets| == |s.budgets|
      && r.budgets[i].id == s.budgets[i].id
      && r.budgets[i].category == f.category
      && r.budgets[i].spent == SpentOf(f.spentAmount)
      && (s.budgets[j].id != s.budgets[i].id ==> r.budgets[j] == s.budgets[j])
  {
    var a := Submit(f, Some(s.budgets[i]), env.now).action;
    assert a == UpdateBudget(a.changed);
    UpdateBudgetOnlyTarget(s, a.changed, env, i);
    UpdateBudgetOnlyTarget(s, a.changed, env, j);
  }

  /** Adding appends one record with the fresh id; when the amount spent lies
      within a positive budget its percentage lies in 0..100. */
  lemma AddAppends(f: Fields, s: State, env: Env)
    requires ValidClock(env.now) && Submit(f, None, env.now).Dispatched?
    ensures var a := Submit(f, None, env.now).action;
      var r := Reduce(s, a, env);
      && r.budgets == s.budgets + [BudgetRecord(a.newBudget)]
      && r.budgets[|s.budgets|].id == env.now.millis
    ensures var input := Submit(f, None, env.now).action.newBudget;
      0.0 <= input.spent <= input.budget && input.budget > 0.0
      ==> 0 <= BudgetRecord(input).percentage.value <= 100
  {
    var a := Submit(f, None, env.now).action;
    assert ActionValid(a);
    var input := a.newBudget;
    if 0.0 <= input.spent <= input.budget && input.budget > 0.0 {
      PercentageBounds(input.spent, input.budget);
    }
  }
}
