/**
 * The location-tagged todo list (src/components/todo/TodoManager.tsx): an
 * ordered list of todos, a form draft, location suggestions and a loading
 * flag. Adding a todo may first resolve its location text through the place
 * search of the tool-call client.
 *
 * The clock, the date parser and the place-search endpoint are inputs: the
 * id and the creation time of a new todo are parameters, and so is the reply
 * the endpoint gives to a search.
 */
module TodoManager {
  import opened Wrappers
  import opened Sequences
  import opened McpClient

  /** A `Date`, as milliseconds since the epoch. */
  type Timestamp = int

  datatype Priority = Low | Medium | High

  /** A resolved location: address and coordinates, all present or the whole record absent. */
  datatype Location = Location(address: string, lat: real, lng: real)

  datatype Todo = Todo(
    id: string,
    title: string,
    description: string,
    location: Option<Location>,
    completed: bool,
    priority: Priority,
    createdAt: Timestamp,
    dueDate: Option<Timestamp>)

  /** The add-todo form; `dueDate` is the unparsed text of the date input. */
  datatype Draft = Draft(title: string, description: string, location: string, priority: Priority, dueDate: string)

  /** The form as it starts out and as a successful add leaves it. */
  const EmptyDraft: Draft := Draft("", "", "", Medium, "")

  /** The parts of a search hit that the todo list reads. */
  datatype GeoPoint = GeoPoint(lat: Option<real>, lng: Option<real>)
  datatype Geometry = Geometry(location: Option<GeoPoint>)
  datatype Place = Place(placeId: string, name: string, formattedAddress: string, geometry: Option<Geometry>)

  /** The parsed body of a search reply; `content` may be missing. */
  datatype PlacesBody = PlacesBody(content: Option<seq<Place>>)

  // ---------------------------------------------------------------------------
  // Title validation: JavaScript's String.prototype.trim

  /** The characters `trim` removes: ECMAScript WhiteSpace and LineTerminator. */
  predicate IsWhitespace(c: char) {
    c == '\t' || c == '\n' || c == '\U{000B}' || c == '\U{000C}' || c == '\r' || c == ' '
    || c == '\U{00A0}' || c == '\U{1680}' || ('\U{2000}' <= c <= '\U{200A}')
    || c == '\U{2028}' || c == '\U{2029}' || c == '\U{202F}' || c == '\U{205F}'
    || c == '\U{3000}' || c == '\U{FEFF}'
  }

  /** Every character of `s` is whitespace (vacuously so for the empty string). */
  predicate IsBlank(s: string) {
    forall i :: 0 <= i < |s| ==> IsWhitespace(s[i])
  }

  /** `s` without its leading whitespace. */
  function TrimStart(s: string): string {
    if s != [] && IsWhitespace(s[0]) then TrimStart(s[1..]) else s
  }

  /** `s` without its trailing whitespace. */
  function TrimEnd(s: string): string {
    if s != [] && IsWhitespace(s[|s| - 1]) then TrimEnd(s[..|s| - 1]) else s
  }

  /** `s.trim()`: never longer than `s`, and neither starting nor ending with whitespace. */
  function Trim(s: string): (r: string)
    ensures |r| <= |s|
    ensures r != [] ==> !IsWhitespace(r[0]) && !IsWhitespace(r[|r| - 1])
  {
    TrimStartRemovesPrefix(s);
    TrimEndRemovesSuffix(TrimStart(s));
    TrimEnd(TrimStart(s))
  }

  /** `TrimStart` removes a whitespace prefix, and exactly all of it. */
  lemma {:induction false} TrimStartRemovesPrefix(s: string)
    ensures var r := TrimStart(s);
      && |r| <= |s| && r == s[|s| - |r|..]
      && (forall i :: 0 <= i < |s| - |r| ==> IsWhitespace(s[i]))
      && (r != [] ==> !IsWhitespace(r[0]))
  {
    if s != [] && IsWhitespace(s[0]) {
      TrimStartRemovesPrefix(s[1..]);
      var r := TrimStart(s);
      forall i | 0 <= i < |s| - |r|
        ensures IsWhitespace(s[i])
      {
        if i > 0 {
          assert s[i] == s[1..][i - 1];
        }
      }
    }
  }

  /** `TrimEnd` removes a whitespace suffix, and exactly all of it. */
  lemma {:induction false} TrimEndRemovesSuffix(s: string)
    ensures var r := TrimEnd(s);
      && |r| <= |s| && r == s[..|r|]
      && (forall i :: |r| <= i < |s| ==> IsWhitespace(s[i]))
      && (r != [] ==> !IsWhitespace(r[|r| - 1]))
  {
    if s != [] && IsWhitespace(s[|s| - 1]) {
      TrimEndRemovesSuffix(s[..|s| - 1]);
    }
  }

  /**
   * `s.trim()` is what lies between the longest whitespace prefix and the
   * longest whitespace suffix of `s`: it neither starts nor ends with whitespace.
   */
  lemma TrimIsMiddle(s: string)
    ensures var r, k := Trim(s), |s| - |TrimStart(s)|;
      && 0 <= k && k + |r| <= |s| && r == s[k..k + |r|]
      && (forall i :: 0 <= i < k ==> IsWhitespace(s[i]))
      && (forall i :: k + |r| <= i < |s| ==> IsWhitespace(s[i]))
      && (r != [] ==> !IsWhitespace(r[0]) && !IsWhitespace(r[|r| - 1]))
  {
    var t := TrimStart(s);
    TrimStartRemovesPrefix(s);
    TrimEndRemovesSuffix(t);
    var r := Trim(s);
    var k := |s| - |t|;
    assert r == t[..|r|];
    forall i | k + |r| <= i < |s|
      ensures IsWhitespace(s[i])
    {
      assert s[i] == t[i - k];
    }
  }

  /** `!s.trim()` holds exactly for the blank strings. */
  lemma TrimEmptyIffBlank(s: string)
    ensures Trim(s) == "" <==> IsBlank(s)
  {
    var t := TrimStart(s);
    TrimStartRemovesPrefix(s);
    TrimEndRemovesSuffix(t);
    if Trim(s) == "" {
      assert |t| == 0;
    } else {
      assert t != [];
      assert s[|s| - |t|] == t[0];
    }
  }

  /** JavaScript's `s.length`: UTF-16 code units, two for a character outside the Basic Multilingual Plane. */
  function Utf16Length(s: string): (n: nat)
    ensures |s| <= n <= 2 * |s|
    ensures (forall i :: 0 <= i < |s| ==> s[i] < '\U{10000}') ==> n == |s|
  {
    if s == [] then 0 else (if s[0] < '\U{10000}' then 1 else 2) + Utf16Length(s[1..])
  }

  // ---------------------------------------------------------------------------
  // Location enrichment

  /** `place.geometry?.location?.lat`: present only when the geometry, its location and the latitude all are. */
  function GeoLat(place: Place): (r: Option<real>)
    ensures r.Some? <==> place.geometry.Some? && place.geometry.value.location.Some?
                         && place.geometry.value.location.value.lat.Some?
    ensures r.Some? ==> r == place.geometry.value.location.value.lat
  {
    if place.geometry.Some? && place.geometry.value.location.Some? then place.geometry.value.location.value.lat else None
  }

  /** `place.geometry?.location?.lng`: present only when the geometry, its location and the longitude all are. */
  function GeoLng(place: Place): (r: Option<real>)
    ensures r.Some? <==> place.geometry.Some? && place.geometry.value.location.Some?
                         && place.geometry.value.location.value.lng.Some?
    ensures r.Some? ==> r == place.geometry.value.location.value.lng
  {
    if place.geometry.Some? && place.geometry.value.location.Some? then place.geometry.value.location.value.lng else None
  }

  /**
   * The location built from a search hit: its formatted address, and its
   * coordinates with 0 for any that is missing (`lat || 0`; on a present 0
   * this gives 0 as well).
   */
  function LocationOf(place: Place): (loc: Location)
    ensures loc.address == place.formattedAddress
    ensures loc.lat == if GeoLat(place).Some? then GeoLat(place).value else 0.0
    ensures loc.lng == if GeoLng(place).Some? then GeoLng(place).value else 0.0
    ensures place.geometry.None? ==> loc.lat == 0.0 && loc.lng == 0.0
  {
    Location(place.formattedAddress, GeoLat(place).GetOr(0.0), GeoLng(place).GetOr(0.0))
  }

  /** True when the draft's location text makes `addTodo` search and that search fails. */
  predicate SearchFails(locationText: string, reply: HttpReply<PlacesBody>) {
    Trim(locationText) != "" && ReplyOutcome(reply).Failure?
  }

  /**
   * The location a successful add attaches: present exactly when the location
   * text is not blank and the search returns at least one place, and then built
   * from the first place.
   */
  function Enrichment(locationText: string, reply: HttpReply<PlacesBody>): (loc: Option<Location>)
    ensures loc.Some? <==>
      && Trim(locationText) != ""
      && reply.Reply? && reply.ok && reply.body.Some?
      && reply.body.value.content.Some? && |reply.body.value.content.value| > 0
    ensures loc.Some? ==> loc.value == LocationOf(reply.body.value.content.value[0])
  {
    if Trim(locationText) == "" then None
    else match ReplyOutcome(reply)
      case Failure(_) => None
      case Success(body) =>
        if body.content.Some? && |body.content.value| > 0 then Some(LocationOf(body.content.value[0])) else None
  }

  /** `result.content?.slice(0, 5) || []`: the first five results at most. */
  function FirstSuggestions(content: Option<seq<Place>>): (r: seq<Place>)
    ensures content.None? ==> r == []
    ensures content.Some? ==> |r| == (if |content.value| < 5 then |content.value| else 5)
    ensures content.Some? ==> r == content.value[..|r|]
  {
    match content
    case None => []
    case Some(places) => places[..if |places| < 5 then |places| else 5]
  }

  // ---------------------------------------------------------------------------
  // The list operations and the derived views

  /** `toggleTodo`: flip `completed` on every todo with this id. */
  function Toggled(todos: seq<Todo>, id: string): (r: seq<Todo>)
    ensures |r| == |todos|
    ensures forall i :: 0 <= i < |todos| ==>
      && r[i].completed == (todos[i].completed != (todos[i].id == id))
      && r[i].(completed := todos[i].completed) == todos[i]
  {
    seq(|todos|, i requires 0 <= i < |todos| =>
      if todos[i].id == id then todos[i].(completed := !todos[i].completed) else todos[i])
  }

  /** Toggling the same id twice restores the list. */
  lemma ToggleInvolution(todos: seq<Todo>, id: string)
    ensures Toggled(Toggled(todos, id), id) == todos
  {
  }

  /** Toggling an id that no todo has leaves the list as it is. */
  lemma ToggleUnknownId(todos: seq<Todo>, id: string)
    requires forall i :: 0 <= i < |todos| ==> todos[i].id != id
    ensures Toggled(todos, id) == todos
  {
  }

  /** The filter test of `deleteTodo`: `todo.id !== id`. */
  function OtherId(id: string): Todo -> bool {
    (t: Todo) => t.id != id
  }

  /** `deleteTodo`: drop every todo with this id. */
  function Deleted(todos: seq<Todo>, id: string): (r: seq<Todo>)
    ensures forall t :: t in r ==> t in todos && t.id != id
  {
    Filter(todos, OtherId(id))
  }

  /** Deletion keeps every other todo, keeps their order, and is idempotent. */
  lemma DeleteProperties(todos: seq<Todo>, id: string)
    ensures forall t :: t in todos && t.id != id ==> t in Deleted(todos, id)
    ensures forall i :: 0 <= i < |Deleted(todos, id)| ==> Deleted(todos, id)[i].id != id
    ensures Deleted(Deleted(todos, id), id) == Deleted(todos, id)
  {
    forall t | t in todos && t.id != id
      ensures t in Deleted(todos, id)
    {
      FilterKeeps(todos, OtherId(id), t);
    }
    var r := Deleted(todos, id);
    forall i | 0 <= i < |r|
      ensures r[i].id != id
    {
      assert r[i] in r;
    }
    FilterIdempotent(todos, OtherId(id));
  }

  /** Deleting from a concatenation deletes from each part: the survivors keep their relative order. */
  lemma DeleteKeepsOrder(front: seq<Todo>, back: seq<Todo>, id: string)
    ensures Deleted(front + back, id) == Deleted(front, id) + Deleted(back, id)
  {
    FilterConcat(front, back, OtherId(id));
  }

  /** Deleting an id that no todo has leaves the list as it is. */
  lemma DeleteUnknownId(todos: seq<Todo>, id: string)
    requires forall i :: 0 <= i < |todos| ==> todos[i].id != id
    ensures Deleted(todos, id) == todos
  {
    FilterAll(todos, OtherId(id));
  }

  predicate IsPending(t: Todo) { !t.completed }

  predicate IsCompleted(t: Todo) { t.completed }

  /** `pendingTodos`. */
  function PendingTodos(todos: seq<Todo>): (r: seq<Todo>)
    ensures forall t :: t in r ==> t in todos && !t.completed
  {
    Filter(todos, IsPending)
  }

  /** `completedTodos`. */
  function CompletedTodos(todos: seq<Todo>): (r: seq<Todo>)
    ensures forall t :: t in r ==> t in todos && t.completed
  {
    Filter(todos, IsCompleted)
  }

  /** The two views partition the list: together they hold each todo exactly as often as the list does. */
  lemma {:induction false} ViewsPartition(todos: seq<Todo>)
    ensures multiset(PendingTodos(todos)) + multiset(CompletedTodos(todos)) == multiset(todos)
    ensures |PendingTodos(todos)| + |CompletedTodos(todos)| == |todos|
  {
    if todos != [] {
      ViewsPartition(todos[1..]);
      assert todos == [todos[0]] + todos[1..];
    }
  }

  /** Every title in the list trims to a non-empty string, as `addTodo` ensures for the todos it creates. */
  predicate TitlesPresent(todos: seq<Todo>) {
    forall i :: 0 <= i < |todos| ==> Trim(todos[i].title) != ""
  }

  /** Appending a todo whose trimmed title is not empty keeps every title non-blank. */
  lemma AppendKeepsTitles(todos: seq<Todo>, todo: Todo)
    requires Trim(todo.title) != ""
    ensures TitlesPresent(todos) ==> TitlesPresent(todos + [todo])
  {
  }

  /** Toggling and deleting keep every title non-blank. */
  lemma ListOperationsKeepTitles(todos: seq<Todo>, id: string)
    requires TitlesPresent(todos)
    ensures TitlesPresent(Toggled(todos, id))
    ensures TitlesPresent(Deleted(todos, id))
  {
  }

  // ---------------------------------------------------------------------------
  // Priority colours

  /** The string a priority is stored and compared as. */
  function PriorityName(p: Priority): string {
    match p
    case Low => "low"
    case Medium => "medium"
    case High => "high"
  }

  const DefaultColor: string := "border-gray-300 bg-white"

  /** `getPriorityColor`: the CSS classes for a priority string. */
  function GetPriorityColor(priority: string): (c: string)
    ensures c != DefaultColor <==> priority in {"high", "medium", "low"}
  {
    match priority
    case "high" => "border-red-500 bg-red-50"
    case "medium" => "border-yellow-500 bg-yellow-50"
    case "low" => "border-green-500 bg-green-50"
    case _ => DefaultColor
  }

  /** Every priority gets its own colour, none of them the fallback for unknown strings. */
  lemma PriorityColorsDistinct(p: Priority, q: Priority)
    ensures GetPriorityColor(PriorityName(p)) != DefaultColor
    ensures p != q ==> GetPriorityColor(PriorityName(p)) != GetPriorityColor(PriorityName(q))
  {
  }

  // ---------------------------------------------------------------------------
  // Persistence mapping (storage access and JSON are not modelled)

  /** A todo as it comes back from the storage slot: dates are strings, an undefined due date is missing. */
  datatype StoredTodo = StoredTodo(
    id: string,
    title: string,
    description: string,
    location: Option<Location>,
    completed: bool,
    priority: Priority,
    createdAt: string,
    dueDate: Option<string>)

  /** The load-time conversion of one todo; `parseDate` stands for `new Date(...)`. */
  function Revived(s: StoredTodo, parseDate: string -> Timestamp): (t: Todo)
    ensures t.createdAt == parseDate(s.createdAt)
    ensures t.dueDate.None? <==> s.dueDate.None? || s.dueDate.value == ""
    ensures t.dueDate.Some? ==> t.dueDate.value == parseDate(s.dueDate.value)
    ensures t.id == s.id && t.title == s.title && t.description == s.description
    ensures t.location == s.location && t.completed == s.completed && t.priority == s.priority
  {
    Todo(s.id, s.title, s.description, s.location, s.completed, s.priority,
         parseDate(s.createdAt),
         if s.dueDate.Some? && s.dueDate.value != "" then Some(parseDate(s.dueDate.value)) else None)
  }

  /** The list as loaded from a stored array. */
  function Loaded(stored: seq<StoredTodo>, parseDate: string -> Timestamp): (r: seq<Todo>)
    ensures |r| == |stored|
    ensures forall i :: 0 <= i < |stored| ==> r[i] == Revived(stored[i], parseDate)
  {
    seq(|stored|, i requires 0 <= i < |stored| => Revived(stored[i], parseDate))
  }

  /** A todo as the save writes it; `formatDate` stands for the JSON form of a `Date`. */
  function Saved(t: Todo, formatDate: Timestamp -> string): (s: StoredTodo)
    ensures s.createdAt == formatDate(t.createdAt)
    ensures s.dueDate.Some? <==> t.dueDate.Some?
    ensures s.dueDate.Some? ==> s.dueDate.value == formatDate(t.dueDate.value)
    ensures s.id == t.id && s.title == t.title && s.description == t.description
    ensures s.location == t.location && s.completed == t.completed && s.priority == t.priority
  {
    StoredTodo(t.id, t.title, t.description, t.location, t.completed, t.priority,
               formatDate(t.createdAt),
               if t.dueDate.Some? then Some(formatDate(t.dueDate.value)) else None)
  }

  /**
   * Loading what was saved gives back the same list, provided the date format
   * is never empty and parses back to the same timestamp.
   */
  lemma LoadSaveRoundTrip(todos: seq<Todo>, parseDate: string -> Timestamp, formatDate: Timestamp -> string)
    requires forall d :: parseDate(formatDate(d)) == d
    requires forall d :: formatDate(d) != ""
    ensures Loaded(seq(|todos|, i requires 0 <= i < |todos| => Saved(todos[i], formatDate)), parseDate) == todos
  {
    var stored := seq(|todos|, i requires 0 <= i < |todos| => Saved(todos[i], formatDate));
    var back := Loaded(stored, parseDate);
    forall i | 0 <= i < |todos|
      ensures back[i] == todos[i]
    {
      var t := todos[i];
      assert stored[i] == Saved(t, formatDate);
      if t.dueDate.Some? {
        var d := t.dueDate.value;
        assert formatDate(d) != "";
        assert stored[i].dueDate == Some(formatDate(d));
      }
    }
  }

  // ---------------------------------------------------------------------------
  // The component state

  /** The origin `getDirectionsToTodo` uses in place of the user's position. */
  const CurrentLocation: string := "Current Location"

  class TodoList {
    var todos: seq<Todo>
    var draft: Draft
    var suggestions: seq<Place>
    var loading: bool
    const client: GoogleMapsMCPClient

    constructor()
      ensures todos == [] && draft == EmptyDraft && suggestions == [] && !loading
      ensures client.baseUrl == GoogleMapsUrl
    {
      todos := [];
      draft := EmptyDraft;
      suggestions := [];
      loading := false;
      client := new GoogleMapsMCPClient();
    }

    /**
     * The mount-time load: a missing or empty slot (`None`) leaves the list
     * as it is; otherwise every stored todo is converted.
     */
    method Restore(saved: Option<seq<StoredTodo>>, parseDate: string -> Timestamp)
      modifies this`todos
      ensures saved.None? ==> todos == old(todos)
      ensures saved.Some? ==> todos == Loaded(saved.value, parseDate)
    {
      if saved.Some? {
        todos := Loaded(saved.value, parseDate);
      }
    }

    /**
     * `searchLocation`: a query shorter than three code units clears the
     * suggestions without searching; otherwise the first five results become
     * the suggestions, and a failed search leaves them as they were. Returns
     * the request posted, if any.
     */
    method SearchLocation(query: string, reply: HttpReply<PlacesBody>) returns (posted: Option<HttpRequest>)
      modifies this`suggestions
      ensures Utf16Length(query) < 3 ==> posted.None? && suggestions == []
      ensures Utf16Length(query) >= 3 ==> posted == Some(client.SearchPlaces(query, None, reply).request)
      ensures Utf16Length(query) >= 3 && ReplyOutcome(reply).Failure? ==> suggestions == old(suggestions)
      ensures Utf16Length(query) >= 3 && ReplyOutcome(reply).Success? ==>
        suggestions == FirstSuggestions(reply.body.value.content)
    {
      if Utf16Length(query) < 3 {
        suggestions := [];
        return None;
      }
      var exchange := client.SearchPlaces(query, None, reply);
      posted := Some(exchange.request);
      match exchange.result {
        case Success(body) =>
          suggestions := FirstSuggestions(body.content);
        case Failure(_) =>
      }
    }

    /** Choosing a suggestion copies its address into the draft and closes the list. */
    method PickSuggestion(index: nat)
      requires index < |suggestions|
      modifies this`draft, this`suggestions
      ensures draft == old(draft).(location := old(suggestions)[index].formattedAddress)
      ensures suggestions == []
    {
      draft := draft.(location := suggestions[index].formattedAddress);
      suggestions := [];
    }

    /**
     * The enrichment step of `addTodo`: a non-blank location text is searched
     * for, and the first hit, if any, becomes the location. Returns the search
     * request posted, if any, the location, and whether the search failed.
     */
    method ResolveLocation(text: string, reply: HttpReply<PlacesBody>)
      returns (posted: Option<HttpRequest>, location: Option<Location>, failed: bool)
      ensures posted == (if Trim(text) == "" then None else Some(client.SearchPlaces(text, None, reply).request))
      ensures failed == SearchFails(text, reply)
      ensures failed ==> location.None?
      ensures !failed ==> location == Enrichment(text, reply)
    {
      posted, location, failed := None, None, false;
      if Trim(text) != "" {
        var exchange := client.SearchPlaces(text, None, reply);
        posted := Some(exchange.request);
        match exchange.result {
          case Failure(_) =>
            failed := true;
          case Success(body) =>
            if body.content.Some? && |body.content.value| > 0 {
              location := Some(LocationOf(body.content.value[0]));
            }
        }
      }
    }

    /**
     * `addTodo`. A blank title does nothing at all. Otherwise a non-blank
     * location text is searched for first; if that search fails nothing is
     * added and the draft is kept. Else one todo is appended, with the draft's
     * raw title, `id`, creation time `now` and, when the draft has due-date
     * text, that text parsed by `parseDate` (`new Date(...)`); the draft and the suggestions are
     * reset. `loading` ends false whenever the title was not blank. Returns the
     * search request posted, if any.
     */
    method AddTodo(id: string, now: Timestamp, parseDate: string -> Timestamp, reply: HttpReply<PlacesBody>)
      returns (posted: Option<HttpRequest>)
      modifies this`todos, this`draft, this`suggestions, this`loading
      ensures Trim(old(draft).title) == "" ==>
        && posted.None?
        && todos == old(todos) && draft == old(draft)
        && suggestions == old(suggestions) && loading == old(loading)
      ensures Trim(old(draft).title) != "" ==>
        && !loading
        && posted == (if Trim(old(draft).location) == "" then None
                      else Some(client.SearchPlaces(old(draft).location, None, reply).request))
      ensures Trim(old(draft).title) != "" && SearchFails(old(draft).location, reply) ==>
        todos == old(todos) && draft == old(draft) && suggestions == old(suggestions)
      ensures Trim(old(draft).title) != "" && !SearchFails(old(draft).location, reply) ==>
        && todos == old(todos) + [Todo(id, old(draft).title, old(draft).description,
                                       Enrichment(old(draft).location, reply), false, old(draft).priority, now,
                                       if old(draft).dueDate == "" then None else Some(parseDate(old(draft).dueDate)))]
        && draft == EmptyDraft && suggestions == []
      ensures TitlesPresent(old(todos)) ==> TitlesPresent(todos)
    {
      posted := None;
      if Trim(draft.title) == "" {
        return;
      }
      loading := true;
      var location, failed;
      posted, location, failed := ResolveLocation(draft.location, reply);
      if !failed {
        var todo := Todo(id, draft.title, draft.description, location, false, draft.priority, now,
                         if draft.dueDate == "" then None else Some(parseDate(draft.dueDate)));
        AppendKeepsTitles(todos, todo);
        todos := todos + [todo];
        draft := EmptyDraft;
        suggestions := [];
      }
      loading := false;
    }

    /**
     * The call `getDirectionsToTodo` makes: none for a todo without a location,
     * otherwise driving directions from the fixed origin "Current Location" to
     * the todo's address. What is shown of the result is not modelled.
     */
    function DirectionsToTodo<B>(todo: Todo, reply: HttpReply<B>): (r: Option<Exchange<B>>)
      ensures r.None? <==> todo.location.None?
      ensures r.Some? ==>
        && todo.location.Some?
        && r.value.request.body == Some(ToolCall("get_directions",
             map["origin" := Some(Str(CurrentLocation)),
                 "destination" := Some(Str(todo.location.value.address)),
                 "mode" := Some(Str("driving"))]))
    {
      if todo.location.None? then None
      else Some(client.GetDirections(CurrentLocation, todo.location.value.address, None, reply))
    }

    /** `toggleTodo`. */
    method ToggleTodo(id: string)
      modifies this`todos
      ensures todos == Toggled(old(todos), id)
    {
      todos := Toggled(todos, id);
    }

    /** `deleteTodo`. */
    method DeleteTodo(id: string)
      modifies this`todos
      ensures todos == Deleted(old(todos), id)
    {
      todos := Deleted(todos, id);
    }
  }
}
