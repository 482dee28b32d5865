/** The deposit store (`useDepositStore`): a cache of the user's deposits, the
    deposit being viewed, and the loading/error flags, kept in step with the
    deposits endpoint of the remote API. */
module Deposits {
  import opened Remote
  import Collections

  /** A deposit as the API returns it: its id and the rest of the record,
      which the store never looks into. */
  datatype Deposit = Deposit(id: int, details: string)

  function IdOf(x: Deposit): int { x.id }

  const FetchDepositsFailed := "Nie udało się pobrać wpłat"
  const FetchDepositFailed := "Nie udało się pobrać wpłaty o ID"
  const CreateDepositFailed := "Nie udało się utworzyć wpłaty"
  const UpdateDepositFailed := "Nie udało się zaktualizować wpłaty o ID"
  const DeleteDepositFailed := "Nie udało się usunąć wpłaty o ID"

  /** `getDepositById`: the first deposit whose id is `parseInt(id)`. */
  function DepositById(deposits: seq<Deposit>, id: Option<int>): (r: Option<Deposit>)
    ensures r.None? <==> forall x :: x in deposits ==> Some(x.id) != id
    ensures r.Some? ==> r.value in deposits && Some(r.value.id) == id
    ensures r.Some? ==> exists i :: 0 <= i < |deposits| && deposits[i] == r.value &&
                                    forall j :: 0 <= j < i ==> Some(deposits[j].id) != id
  {
    Collections.Find(deposits, IdOf, id)
  }

  class DepositStore {
    var deposits: seq<Deposit>
    var deposit: Option<Deposit>
    var loading: bool
    var error: Option<string>

    constructor ()
      ensures deposits == [] && deposit == None && !loading && error == None
    {
      deposits, deposit, loading, error := [], None, false, None;
    }

    /** `fetchDeposits`: replaces the cache on success; on failure keeps it,
        records the message and raises nothing. */
    method FetchDeposits(response: Outcome<seq<Deposit>>)
      modifies this
      ensures !loading && deposit == old(deposit)
      ensures response.Ok? ==> deposits == response.value && error == None
      ensures response.Err? ==> deposits == old(deposits) && error == Some(ClientText(response.failure, FetchDepositsFailed))
    {
      loading := true;
      match response {
      case Ok(list) =>
        deposits := list;
        error := None;
      case Err(f) =>
        error := Some(ClientText(f, FetchDepositsFailed));
      }
      loading := false;
    }

    /** `fetchDeposit(id)`: changes only the viewed deposit, never the cache. */
    method FetchDeposit(response: Outcome<Deposit>)
      modifies this
      ensures !loading && deposits == old(deposits)
      ensures response.Ok? ==> deposit == Some(response.value) && error == None
      ensures response.Err? ==> deposit == old(deposit) && error == Some(ClientText(response.failure, FetchDepositFailed))
    {
      loading := true;
      match response {
      case Ok(x) =>
        deposit := Some(x);
        error := None;
      case Err(f) =>
        error := Some(ClientText(f, FetchDepositFailed));
      }
      loading := false;
    }

    /** `createDeposit`: appends the created deposit and returns it, or records and re-raises the failure. */
    method CreateDeposit(response: Outcome<Deposit>) returns (r: Outcome<Deposit>)
      modifies this
      ensures r == response && !loading && deposit == old(deposit)
      ensures response.Ok? ==> deposits == old(deposits) + [response.value] && error == None
      ensures response.Err? ==> deposits == old(deposits) && error == Some(ClientText(response.failure, CreateDepositFailed))
    {
      loading := true;
      match response {
      case Ok(x) =>
        deposits := deposits + [x];
        error := None;
      case Err(f) =>
        error := Some(ClientText(f, CreateDepositFailed));
      }
      r := response;
      loading := false;
    }

    /** `updateDeposit(id, ...)`: overwrites the first cached deposit with that
        id, if any, and returns the server's record either way; a failure is
        recorded and re-raised. */
    method UpdateDeposit(id: Option<int>, response: Outcome<Deposit>) returns (r: Outcome<Deposit>)
      modifies this
      ensures r == response && !loading && deposit == old(deposit)
      ensures |deposits| == |old(deposits)|
      ensures response.Ok? ==> error == None
      ensures response.Ok? ==> var i := Collections.FindIndex(old(deposits), IdOf, id);
                               if i == -1 then deposits == old(deposits)
                               else deposits == old(deposits)[i := response.value]
      ensures response.Err? ==> deposits == old(deposits) && error == Some(ClientText(response.failure, UpdateDepositFailed))
    {
      loading := true;
      match response {
      case Ok(x) =>
        var index := Collections.FindIndex(deposits, IdOf, id);
        if index != -1 {
          deposits := deposits[index := x];
        }
        error := None;
      case Err(f) =>
        error := Some(ClientText(f, UpdateDepositFailed));
      }
      r := response;
      loading := false;
    }

    /** `deleteDeposit(id)`: drops every cached deposit with that id, or records and re-raises the failure. */
    method DeleteDeposit(id: Option<int>, response: Outcome<()>) returns (r: Outcome<()>)
      modifies this
      ensures r == response && !loading && deposit == old(deposit)
      ensures response.Ok? ==> deposits == Collections.Without(old(deposits), IdOf, id) && error == None
      ensures response.Ok? ==> forall x :: x in deposits ==> !Collections.SameId(x.id, id)
      ensures response.Err? ==> deposits == old(deposits) && error == Some(ClientText(response.failure, DeleteDepositFailed))
    {
      loading := true;
      match response {
      case Ok(_) =>
        deposits := Collections.Without(deposits, IdOf, id);
        error := None;
      case Err(f) =>
        error := Some(ClientText(f, DeleteDepositFailed));
      }
      r := response;
      loading := false;
    }
  }
}
