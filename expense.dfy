/** The expense store (`useExpenseStore`): a cache of the user's expenses, the
    expense being viewed, and the loading/error flags, kept in step with the
    expenses endpoint of the remote API. */
module Expenses {
  import opened Remote
  import Collections

  /** An expense as the API returns it: its id and the rest of the record,
      which the store never looks into. */
  datatype Expense = Expense(id: int, details: string)

  function IdOf(x: Expense): int { x.id }

  const FetchExpensesFailed := "Nie udało się pobrać wydatków"
  const FetchExpenseFailed := "Nie udało się pobrać wydatku o ID"
  const CreateExpenseFailed := "Nie udało się utworzyć wydatku"
  const UpdateExpenseFailed := "Nie udało się zaktualizować wydatku o ID"
  const DeleteExpenseFailed := "Nie udało się usunąć wydatku o ID"

  /** `getExpenseById`: the first expense whose id is `parseInt(id)`. */
  function ExpenseById(expenses: seq<Expense>, id: Option<int>): (r: Option<Expense>)
    ensures r.None? <==> forall x :: x in expenses ==> Some(x.id) != id
    ensures r.Some? ==> r.value in expenses && Some(r.value.id) == id
    ensures r.Some? ==> exists i :: 0 <= i < |expenses| && expenses[i] == r.value &&
                                    forall j :: 0 <= j < i ==> Some(expenses[j].id) != id
  {
    Collections.Find(expenses, IdOf, id)
  }

  class ExpenseStore {
    var expenses: seq<Expense>
    var expense: Option<Expense>
    var loading: bool
    var error: Option<string>

    constructor ()
      ensures expenses == [] && expense == None && !loading && error == None
    {
      expenses, expense, loading, error := [], None, false, None;
    }

    /** `fetchExpenses`: replaces the cache on success; on failure keeps it,
        records the message and raises nothing. */
    method FetchExpenses(response: Outcome<seq<Expense>>)
      modifies this
      ensures !loading && expense == old(expense)
      ensures response.Ok? ==> expenses == response.value && error == None
      ensures response.Err? ==> expenses == old(expenses) && error == Some(ClientText(response.failure, FetchExpensesFailed))
    {
      loading := true;
      match response {
      case Ok(list) =>
        expenses := list;
        error := None;
      case Err(f) =>
        error := Some(ClientText(f, FetchExpensesFailed));
      }
      loading := false;
    }

    /** `fetchExpense(id)`: changes only the viewed expense, never the cache. */
    method FetchExpense(response: Outcome<Expense>)
      modifies this
      ensures !loading && expenses == old(expenses)
      ensures response.Ok? ==> expense == Some(response.value) && error == None
      ensures response.Err? ==> expense == old(expense) && error == Some(ClientText(response.failure, FetchExpenseFailed))
    {
      loading := true;
      match response {
      case Ok(x) =>
        expense := Some(x);
        error := None;
      case Err(f) =>
        error := Some(ClientText(f, FetchExpenseFailed));
      }
      loading := false;
    }

    /** `createExpense`: appends the created expense and returns it, or records and re-raises the failure. */
    method CreateExpense(response: Outcome<Expense>) returns (r: Outcome<Expense>)
      modifies this
      ensures r == response && !loading && expense == old(expense)
      ensures response.Ok? ==> expenses == old(expenses) + [response.value] && error == None
      ensures response.Err? ==> expenses == old(expenses) && error == Some(ClientText(response.failure, CreateExpenseFailed))
    {
      loading := true;
      match response {
      case Ok(x) =>
        expenses := expenses + [x];
        error := None;
      case Err(f) =>
        error := Some(ClientText(f, CreateExpenseFailed));
      }
      r := response;
      loading := false;
    }

    /** `updateExpense(id, ...)`: overwrites the first cached expense with that
        id, if any, and returns the server's record either way; a failure is
        recorded and re-raised. */
    method UpdateExpense(id: Option<int>, response: Outcome<Expense>) returns (r: Outcome<Expense>)
      modifies this
      ensures r == response && !loading && expense == old(expense)
      ensures |expenses| == |old(expenses)|
      ensures response.Ok? ==> error == None
      ensures response.Ok? ==> var i := Collections.FindIndex(old(expenses), IdOf, id);
                               if i == -1 then expenses == old(expenses)
                               else expenses == old(expenses)[i := response.value]
      ensures response.Err? ==> expenses == old(expenses) && error == Some(ClientText(response.failure, UpdateExpenseFailed))
    {
      loading := true;
      match response {
      case Ok(x) =>
        var index := Collections.FindIndex(expenses, IdOf, id);
        if index != -1 {
          expenses := expenses[index := x];
        }
        error := None;
      case Err(f) =>
        error := Some(ClientText(f, UpdateExpenseFailed));
      }
      r := response;
      loading := false;
    }

    /** `deleteExpense(id)`: drops every cached expense with that id, or records and re-raises the failure. */
    method DeleteExpense(id: Option<int>, response: Outcome<()>) returns (r: Outcome<()>)
      modifies this
      ensures r == response && !loading && expense == old(expense)
      ensures response.Ok? ==> expenses == Collections.Without(old(expenses), IdOf, id) && error == None
      ensures response.Ok? ==> forall x :: x in expenses ==> !Collections.SameId(x.id, id)
      ensures response.Err? ==> expenses == old(expenses) && error == Some(ClientText(response.failure, DeleteExpenseFailed))
    {
      loading := true;
      match response {
      case Ok(_) =>
        expenses := Collections.Without(expenses, IdOf, id);
        error := None;
      case Err(f) =>
        error := Some(ClientText(f, DeleteExpenseFailed));
      }
      r := response;
      loading := false;
    }
  }
}
