/** Worked examples of the todo list and the client, derived from the contracts alone. */
module Scenarios {
  import opened Wrappers
  import opened McpClient
  import opened TodoManager

  /** Adding "Meet Bob" at "Central Park" when the search finds one place stores that place's address and coordinates. */
  method CentralPark() {
    var list := new TodoList();
    list.draft := list.draft.(title := "Meet Bob", location := "Central Park");
    var park := Place("p1", "Central Park", "Central Park, NYC", Some(Geometry(Some(GeoPoint(Some(40.78), Some(-73.96))))));
    var reply := Reply(true, 200, Some(PlacesBody(Some([park]))));
    assert Trim("Meet Bob") != "";
    assert Trim("Central Park") != "";
    var posted := list.AddTodo("1", 1000, _ => 0, reply);
    assert posted.Some?;
    assert list.todos == [Todo("1", "Meet Bob", "", Some(Location("Central Park, NYC", 40.78, -73.96)), false, Medium, 1000, None)];
    assert list.draft == EmptyDraft && !list.loading;
  }

  /** A search answered with status 500 adds nothing and keeps the draft. */
  method ServerError() {
    var list := new TodoList();
    list.draft := list.draft.(title := "Buy milk", location := "Shop");
    assert Trim("Buy milk") != "";
    assert Trim("Shop") != "";
    var before := list.draft;
    var posted := list.AddTodo("2", 1000, _ => 0, Reply(false, 500, None));
    assert list.todos == [] && list.draft == before && !list.loading;
  }

  /** Adding with an empty location makes no search and attaches no location. */
  method NoLocation() {
    var list := new TodoList();
    list.draft := list.draft.(title := "Buy milk");
    assert Trim("Buy milk") != "";
    assert Trim("") == "";
    var posted := list.AddTodo("3", 1000, _ => 0, NetworkFailure);
    assert posted.None?;
    assert list.todos == [Todo("3", "Buy milk", "", None, false, Medium, 1000, None)];
  }

  /** Directions requested without a mode are asked for by car. */
  method DirectionsDefault() {
    var client := new GoogleMapsMCPClient();
    var reply: HttpReply<int> := NetworkFailure;
    var exchange := client.GetDirections("A", "B", None, reply);
    assert exchange.request.body.value.arguments["mode"] == Some(Str("driving"));
    assert exchange.result == Failure(FetchFailed);
  }
}
