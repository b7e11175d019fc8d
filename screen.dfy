/** Vocabulary shared by the screens: JavaScript's `null`/`undefined` as an
    optional value, and the navigation a handler asks the router for. */
module Screen {

  datatype Option<+T> = None | Some(value: T)

  /** What a handler asks of the router: nothing, or a move to a route. */
  datatype Nav = Stay | NavigateTo(path: string)

  const Dashboard: string := "/dashboard"
}
