# ObservablePattern in Dafny

A model of the reactive binding at the heart of the ObservablePattern demo app: the generic
box `Observable<T>`, which stores an optional value and calls every registered listener when the
value is assigned, and the user-list screen built on it (its view model, the two table-view
queries, the mapping from decoded `User` records to cell view models, and the completion of the
one fetch).

- `options.dfy` — `Option<T>`, Swift's `T?`.
- `observable.dfy` — module `Observables`. The class `Observable<T>` has the source's two fields
  (`value`, `listeners`) and a third, `log`, that records every listener call as
  `Call(listener, value)`. A listener closure is represented by a `ListenerId`. Beside the class
  sits a value-level model (`ObservableState`, `Step` for one `Bind`/`Assign` operation, `Run` for
  a sequence of them). Each mutating method's contract states its new state as `Step` of its old
  state. The lemmas about `Step` and `Run` then state what holds across any sequence of
  operations.
- `user_list.dfy` — module `UserList`: `User`, `CellViewModel`, `UserListViewModel`, the
  `ViewController` with its view model, `viewDidLoad`, the two data-source queries, and
  `fetchData` with its completion.

`bind` calls the listener, then appends it (ObservablePattern/ViewController.swift:17-18).
`viewDidLoad` binds the render listener and then calls `fetchData()`
(ObservablePattern/ViewController.swift:50-57). The model's `ViewDidLoad` performs the bind only.
The fetch is the separate step `FetchData`, because its completion runs later.

## Model

| member | source | states |
|---|---|---|
| `Observables.Broadcast` | ObservablePattern/ViewController.swift:6 | the calls made by `didSet`: one per registered listener, in registration order, each with the new value |
| `Observables.Observable.constructor` | ObservablePattern/ViewController.swift:10-14 | construction stores the given value, starts with no listeners, and calls no listener |
| `Observables.Observable.SetValue` | ObservablePattern/ViewController.swift:4-8 | assigning replaces the value, keeps the listener list, and appends exactly one call per registered listener, in order, with the new value |
| `Observables.Observable.Bind` | ObservablePattern/ViewController.swift:16-19 | binding calls the new listener once with the current value, keeps the value, and appends the listener at the end of the list |
| `Observables.CallsToBroadcast` | ObservablePattern/ViewController.swift:4-8 | on an assignment, each listener receives the new value once per time it was registered, and nothing else |
| `Observables.BindNotifiesOnlyNewListener` | ObservablePattern/ViewController.swift:16-19 | binding `l` gives `l` exactly one call, with the current value, gives no other listener a call, and leaves the value unchanged |
| `Observables.AssignNotifiesEachRegistration` | ObservablePattern/ViewController.swift:4-8 | after an assignment, each listener's received values are its old ones followed by one copy of the new value per registration |
| `Observables.StepListeners` | ObservablePattern/ViewController.swift:14-19 | one operation adds to the listener list exactly the listener it binds, at the end, and an assignment adds none |
| `Observables.RunKeepsListeners` | ObservablePattern/ViewController.swift:14-19 | listeners are never removed or reordered: after any sequence of operations the list is the old list followed by the newly bound listeners, so it never shrinks |
| `Observables.RunExtendsLog` | ObservablePattern/ViewController.swift:3-20 | calls already made stay as they were: the old call log is a prefix of the log after any sequence of operations |
| `Observables.StepSeenByListener` | ObservablePattern/ViewController.swift:3-20 | a listener registered once, and not bound again, hears one step as exactly the assigned value, or nothing for a bind |
| `Observables.BoundListenerHearsEverySet` | ObservablePattern/ViewController.swift:3-20 | a listener registered once, and not bound again, receives exactly the later assigned values, each once, in order |
| `Observables.RunAppend` | ObservablePattern/ViewController.swift:3-20 | performing two sequences of operations one after the other is performing their concatenation |
| `Observables.BindsKeepValue` | ObservablePattern/ViewController.swift:16-19 | a run of binds does not change the stored value |
| `Observables.RunValue` | ObservablePattern/ViewController.swift:4-19 | after any sequence of operations the stored value is the last value assigned, or the initial value if none was; binds never change it |
| `Observables.LateBinderSeesLatestValue` | ObservablePattern/ViewController.swift:16-17 | a listener bound after any sequence of operations is called at once, exactly once, with the most recently assigned value, or the initial value if none was assigned |
| `Observables.ExampleSession` | ObservablePattern/ViewController.swift:3-20 | construct with 5, bind 1, set 7, bind 2, set nil: the calls are 1 with 5, 1 with 7, 2 with 7, 1 with nil, 2 with nil, in that order |
| `UserList.ToCells` | ObservablePattern/ViewController.swift:80 | mapping users to cell view models keeps the length and the order, and cell i's name is user i's name |
| `UserList.RowCount` | ObservablePattern/ViewController.swift:61 | the row count is 0 exactly when the value is absent or empty |
| `UserList.RowText` | ObservablePattern/ViewController.swift:66 | the row text is absent exactly when the value is absent; otherwise it is the name of that row's cell |
| `UserList.FetchedRows` | ObservablePattern/ViewController.swift:71-84 | the fetch stores nothing exactly when the URL cannot be built, no body arrives, or the body does not decode; otherwise it stores the decoded users mapped to cells |
| `UserList.FetchedUsersShown` | ObservablePattern/ViewController.swift:60-66 | after users are stored, the row count is the number of users and row i shows user i's name |
| `UserList.ViewController.constructor` | ObservablePattern/ViewController.swift:24 | a fresh screen's row list holds the empty array, has no listeners and no calls, so the row count is 0 |
| `UserList.ViewController.ViewDidLoad` | ObservablePattern/ViewController.swift:50-55 | loading the view binds the render listener, which is called at once with the current rows |
| `UserList.ViewController.NumberOfRows` | ObservablePattern/ViewController.swift:60-62 | the table's row count is the row count of the observable's current value |
| `UserList.ViewController.CellText` | ObservablePattern/ViewController.swift:64-67 | the cell text is absent exactly when the value is absent; otherwise it is the name of the requested row, which must exist |
| `UserList.ViewController.FetchData` | ObservablePattern/ViewController.swift:71-88 | a failed fetch leaves the value, the listeners and the call log unchanged; a successful one performs exactly one assignment of the mapped rows |

## Left out

- UIKit: creating and laying out the table view, dequeuing cells and `reloadData`. These are toolkit calls. The render listener is only an identifier that receives calls.
- `DispatchQueue.main.async` in the render listener. This is a thread hop with no effect on the row list.
- `URLSession` and `task.resume()`. The network is I/O. Its outcome is a parameter: whether the URL could be built and the response body, if any.
- `JSONDecoder`. Decoding belongs to a library outside the model. It is a parameter: a function from bytes to an optional array of users.
- The `[weak self]` checks. They concern object lifetime: the model's controller is always alive.
- What a listener does when it is called. This includes a listener that assigns the value or binds another listener from inside the call. Listener code is arbitrary. Without such re-entrancy, calling the new listener before or after appending it in `bind` records the same calls.
- `UserList.ViewController.NumberOfRows`: ignores the section argument. The table has one section.
- `UserList.ViewController.FetchData`, `UserList.ViewController.NumberOfRows`, `UserList.ViewController.CellText`: modelled as atomic steps performed one after another. In the source the fetch completion runs on a background queue. It assigns the rows, and so calls every listener, off the main thread. That can race with the table view's reads on the main thread. The model does not capture such interleavings.
