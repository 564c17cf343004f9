/** What the pages hand each other when they navigate: the router's
    `location.state`, whose fields may be missing. */
module Nav {
  import opened Js

  datatype NavState = NavState(data: Option<Dataset>, columns: Option<seq<string>>)

  /** A handler's outcome: a `history.push` to a route with a state, or an
      error notification shown in place. */
  datatype Navigation = Navigate(path: string, state: NavState) | Notify(message: string)
}
