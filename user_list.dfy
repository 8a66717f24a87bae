/**
 * The user list screen (ObservablePattern/ViewController.swift:22-89): its view model, the two
 * table-view queries, the mapping from decoded users to cell view models, and the completion
 * step of the one fetch.
 *
 * The network request, JSON decoding and UIKit are outside the model: the fetch is described by
 * whether the URL could be built, the response body (if any), and a decoding function.
 */
module UserList {
  import opened Options
  import opened Observables

  /** The decoded remote record (`struct User: Codable`). */
  datatype User = User(name: string)

  /** What a table cell shows (`struct UserTableViewCellViewModel`). */
  datatype CellViewModel = CellViewModel(name: string)

  /** `struct UserListViewModel`: a value holding a reference to the observable row list. */
  datatype UserListViewModel = UserListViewModel(users: Observable<seq<CellViewModel>>)

  type Bytes = seq<bv8>

  /** `userModels.compactMap({ UserTableViewCellViewModel(name: $0.name) })`. */
  function ToCells(users: seq<User>): (cells: seq<CellViewModel>)
    ensures |cells| == |users|
    ensures forall i :: 0 <= i < |users| ==> cells[i].name == users[i].name
  {
    if users == [] then [] else [CellViewModel(users[0].name)] + ToCells(users[1..])
  }

  /** `value?.count ?? 0`: the number of rows. */
  function RowCount(value: Option<seq<CellViewModel>>): (n: nat)
    ensures n == 0 <==> value.None? || value.value == []
  {
    match value
    case None => 0
    case Some(cells) => |cells|
  }

  /** `value?[row].name`: nil when there is no value; otherwise the row must exist. */
  function RowText(value: Option<seq<CellViewModel>>, row: int): (text: Option<string>)
    requires 0 <= row
    requires value.Some? ==> row < |value.value|
    ensures text.None? <==> value.None?
    ensures text.Some? ==> text.value == value.value[row].name
  {
    match value
    case None => None
    case Some(cells) => Some(cells[row].name)
  }

  /**
   * The rows the fetch completion stores, or `None` when it returns without storing: the URL
   * could not be built, there was no body, or the body did not decode.
   */
  function FetchedRows(urlValid: bool, data: Option<Bytes>, decode: Bytes -> Option<seq<User>>)
    : (rows: Option<seq<CellViewModel>>)
    ensures rows.None? <==> !urlValid || data.None? || decode(data.value).None?
    ensures rows.Some? ==> rows.value == ToCells(decode(data.value).value)
  {
    if !urlValid then None
    else match data
      case None => None
      case Some(body) =>
        match decode(body)
        case None => None
        case Some(users) => Some(ToCells(users))
  }

  /** After a successful fetch of `users`, the table has one row per user showing that user's name. */
  lemma FetchedUsersShown(users: seq<User>, i: int)
    requires 0 <= i < |users|
    ensures RowCount(Some(ToCells(users))) == |users|
    ensures RowText(Some(ToCells(users)), i) == Some(users[i].name)
  {
  }

  class ViewController {
    const viewModel: UserListViewModel

    /** A fresh screen: the row list is `Observable([])`, nobody is listening, and there are no rows. */
    constructor ()
      ensures fresh(viewModel.users)
      ensures viewModel.users.State() == Init(Some([]))
      ensures RowCount(viewModel.users.value) == 0
    {
      var users := new Observable<seq<CellViewModel>>(Some([]));
      viewModel := UserListViewModel(users);
    }

    /** `viewDidLoad`: binds the render listener, which is called at once with the current rows. */
    method ViewDidLoad(render: ListenerId)
      modifies viewModel.users
      ensures viewModel.users.State() == Step(old(viewModel.users.State()), Bind(render))
    {
      viewModel.users.Bind(render);
    }

    /** `tableView(_:numberOfRowsInSection:)`. */
    method NumberOfRows() returns (n: int)
      ensures n == RowCount(viewModel.users.value)
    {
      n := RowCount(viewModel.users.value);
    }

    /** The text of `tableView(_:cellForRowAt:)`; Swift traps on a missing row of a present value. */
    method CellText(row: int) returns (text: Option<string>)
      requires 0 <= row
      requires viewModel.users.value.Some? ==> row < |viewModel.users.value.value|
      ensures text.None? <==> viewModel.users.value.None?
      ensures text.Some? ==> text.value == viewModel.users.value.value[row].name
    {
      text := RowText(viewModel.users.value, row);
    }

    /**
     * `fetchData` and its completion handler: every failure returns without touching the rows or
     * calling a listener; a success sets the rows exactly once.
     */
    method FetchData(urlValid: bool, data: Option<Bytes>, decode: Bytes -> Option<seq<User>>)
      modifies viewModel.users
      ensures FetchedRows(urlValid, data, decode).None? ==>
                viewModel.users.State() == old(viewModel.users.State())
      ensures FetchedRows(urlValid, data, decode).Some? ==>
                viewModel.users.State() == Step(old(viewModel.users.State()), Assign(FetchedRows(urlValid, data, decode)))
    {
      if !urlValid { return; }
      if data.None? { return; }
      var decoded := decode(data.value);
      if decoded.Some? {
        viewModel.users.SetValue(Some(ToCells(decoded.value)));
      }
    }
  }
}
