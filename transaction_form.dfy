/** The entry form of src/components/TransactionForm.tsx: the form record,
    its field edits, the required-field check and the reset after a submit. */
module TransactionForm {
  import opened Types

  /** The form record; every input holds text. */
  datatype FormData = FormData(
    date: string,
    kind: string,
    category: string,
    amount: string,
    description: string,
    project: string)

  /** A fresh form: `today` stands for `new Date().toISOString().split('T')[0]`. */
  function Blank(today: string): (f: FormData)
    ensures f.date == today && f.kind == Income
    ensures f.category == "" && f.amount == "" && f.description == "" && f.project == ""
  {
    FormData(today, Income, "", "", "", "")
  }

  /** Category, amount and description must be non-empty; date and project
      are not checked. */
  predicate Complete(f: FormData) {
    f.category != "" && f.amount != "" && f.description != ""
  }

  /** The record handed to `onAddTransaction`; `parseAmount` stands for
      `parseFloat`. */
  function ToDraft(f: FormData, parseAmount: string -> int): (d: Draft)
    ensures d.date == f.date && d.kind == f.kind && d.category == f.category
    ensures d.description == f.description && d.project == Some(f.project)
    ensures d.amount == parseAmount(f.amount)
  {
    Draft(f.date, f.kind, f.category, parseAmount(f.amount), f.description, Some(f.project))
  }

  /** `formData.type === 'income' ? INCOME_CATEGORIES : EXPENSE_CATEGORIES`. */
  function Categories(kind: string): (cs: seq<CategoryOption>)
    ensures kind == Income ==> cs == IncomeCategories
    ensures kind != Income ==> cs == ExpenseCategories
  {
    if kind == Income then IncomeCategories else ExpenseCategories
  }

  /** Every offered category has a non-empty value, so picking one of them
      fills the category, and no value is offered twice. */
  lemma OfferedCategoriesSelectable(kind: string)
    ensures forall i :: 0 <= i < |Categories(kind)| ==> Categories(kind)[i].value != ""
    ensures forall i, j :: 0 <= i < j < |Categories(kind)| ==> Categories(kind)[i].value != Categories(kind)[j].value
  {
    var cs := Categories(kind);
    forall i, j | 0 <= i < j < |cs| ensures cs[i].value != cs[j].value {
      assert cs[i].value[0] != cs[j].value[0] || |cs[i].value| != |cs[j].value|;
    }
  }

  /** Whether the form can be submitted does not depend on the date or the project. */
  lemma CompleteIgnoresDateAndProject(f: FormData, date: string, project: string)
    ensures Complete(f.(date := date, project := project)) <==> Complete(f)
  {
  }

  /** The inputs of the form. */
  datatype Field = Date | Type | Category | Amount | Description | Project

  class Form {
    var formData: FormData

    constructor (today: string)
      ensures formData == Blank(today)
    {
      formData := Blank(today);
    }

    /** An input's `onChange`: that field takes the value; changing the type
        also clears the category. */
    method HandleChange(field: Field, value: string)
      modifies this
      ensures formData == match field
                          case Date => old(formData).(date := value)
                          case Type => old(formData).(kind := value, category := "")
                          case Category => old(formData).(category := value)
                          case Amount => old(formData).(amount := value)
                          case Description => old(formData).(description := value)
                          case Project => old(formData).(project := value)
    {
      match field
      case Date => formData := formData.(date := value);
      case Type => formData := formData.(kind := value, category := "");
      case Category => formData := formData.(category := value);
      case Amount => formData := formData.(amount := value);
      case Description => formData := formData.(description := value);
      case Project => formData := formData.(project := value);
    }

    /** `handleSubmit`: an incomplete form is left as it is and nothing is
        added; otherwise the draft built from the form is returned (the one
        `onAddTransaction` call) and the form is reset. */
    method HandleSubmit(parseAmount: string -> int, today: string) returns (added: Option<Draft>)
      modifies this
      ensures !Complete(old(formData)) ==> added == None && formData == old(formData)
      ensures Complete(old(formData)) ==>
                added == Some(ToDraft(old(formData), parseAmount)) && formData == Blank(today)
    {
      if !(formData.category != "" && formData.amount != "" && formData.description != "") {
        return None;
      }
      added := Some(ToDraft(formData, parseAmount));
      formData := Blank(today);
    }
  }
}
