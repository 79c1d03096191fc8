# Location-tagged todo list and Google Maps tool client, modelled in Dafny

This project models the two pieces of logic in the google-mcp-todo-app repository.

- **The tool-call client** (`src/lib/mcp-client.ts`). `GoogleMapsMCPClient` holds one endpoint URL, fixed at construction. `callTool` POSTs a `{name, arguments}` envelope to `<baseUrl>/tools/call` and turns a non-ok status into an error. The four capability methods (`searchPlaces`, `getPlaceDetails`, `getDirections`, `getNearbyPlaces`) fix the tool name and the argument map. `listTools` POSTs to `<baseUrl>/tools/list`.
- **The todo manager** (`src/components/todo/TodoManager.tsx`). It holds an ordered list of todos, the add-todo form (the draft), the location suggestions and a loading flag. `addTodo` validates the title, may resolve the location text through a place search, and appends the new todo. `toggleTodo` and `deleteTodo` map and filter the list. `searchLocation` fills the suggestions. The file also has the pending/completed views, the priority colours and the load-time conversion of stored todos.

Files:

- `wrappers.dfy`: `Option` and `Result`.
- `sequences.dfy`: an order-preserving `Filter` (JavaScript's `Array.prototype.filter`) and its lemmas.
- `mcp_client.dfy`: module `McpClient`. The client is a class with a `const baseUrl`. Its operations are functions that return the request they post together with the outcome (`Exchange`). The endpoint's reply is an input (`HttpReply`): either the fetch fails, or a reply arrives with an `ok` flag, a status and a body that may not parse.
- `todo_manager.dfy`: module `TodoManager`. The list operations are pure functions with lemmas. The component state is the class `TodoList`, whose methods update `todos`, `draft`, `suggestions` and `loading`. The clock, the date parser and the search reply are parameters.
- `scenarios.dfy`: worked examples checked from the contracts alone. Adding "Meet Bob" at "Central Park"; a search answered with status 500; an add with no location; directions with no mode.

The model follows the code as written:

- The stored title is the raw draft title, not the trimmed one (`TodoManager.tsx:88`). Only the emptiness test uses `trim` (`:68`).
- A search that fails during `addTodo` aborts the whole add (`:106-110`). The draft is kept and no todo is added; only `loading` is reset. No location-less todo is created.
- Toggling an unknown id silently does nothing (`:113-117`). There is no not-found error.
- `searchLocation` compares `query.length` against 3 (`:54`). This is counted in UTF-16 code units (`Utf16Length`), not in characters.

## Model

| member | source | states |
|---|---|---|
| `McpClient.ReplyOutcome` | src/lib/mcp-client.ts:32-40 | success exactly when the reply arrived, was ok and its body parsed, and then the result is that body. A failed fetch, a non-ok status (carrying the status) and an unparsable body are each an error |
| `McpClient.Serialized` | src/lib/mcp-client.ts:26-29 | the wire form of an argument map has exactly the keys whose value is not `undefined`, with those values |
| `McpClient.TravelMode` | src/lib/mcp-client.ts:73 | never empty; "driving" for an absent or empty mode, otherwise the given mode |
| `McpClient.GoogleMapsMCPClient.constructor` | src/lib/mcp-client.ts:13-17 | `baseUrl` is the configured google-maps URL; as a `const` it is never reassigned |
| `McpClient.GoogleMapsMCPClient.CallTool` | src/lib/mcp-client.ts:19-41 | POSTs JSON to `baseUrl` followed by `/tools/call`, with body `{name: toolName, arguments}` unchanged; the result is an error unless the reply is ok and parses, and a non-ok status is that status's error |
| `McpClient.GoogleMapsMCPClient.ListTools` | src/lib/mcp-client.ts:43-61 | POSTs JSON without a body to `baseUrl` followed by `/tools/list`; the outcome is the same status check as for a tool call, and a successful call returns the parsed body |
| `McpClient.GoogleMapsMCPClient.SearchPlaces` | src/lib/mcp-client.ts:64-66 | tool `search_places`, keys exactly `query` and `location`; the location is undefined exactly when none was given |
| `McpClient.GoogleMapsMCPClient.GetPlaceDetails` | src/lib/mcp-client.ts:68-70 | tool `get_place_details`, the single key `place_id` set to the given id |
| `McpClient.GoogleMapsMCPClient.GetDirections` | src/lib/mcp-client.ts:72-74 | tool `get_directions`, keys exactly `origin`, `destination`, `mode`; mode "driving" when absent or empty, else the given mode |
| `McpClient.GoogleMapsMCPClient.GetNearbyPlaces` | src/lib/mcp-client.ts:76-78 | tool `nearby_search`, keys exactly `location`, `radius`, `type`, each passed through; `type` undefined when omitted |
| `McpClient.GoogleMapsMCPClient.SearchPlacesWire` | src/lib/mcp-client.ts:64-66 | on the wire, `location` is sent exactly when given, beside the query, and no other key is sent |
| `McpClient.GoogleMapsMCPClient.NearbyPlacesWire` | src/lib/mcp-client.ts:76-78 | on the wire, `type` is sent exactly when given; `location` and `radius` are always sent |
| `McpClient.GoogleMapsMCPClient.DirectionsModeNeverEmpty` | src/lib/mcp-client.ts:72-74 | every directions request sends a non-empty string mode |
| `McpClient.GoogleMapsMCPClient.NonOkStatusIsError` | src/lib/mcp-client.ts:32-34 | for any tool and arguments, a non-ok reply yields the status error, never a result |
| `Sequences.Filter` | src/components/todo/TodoManager.tsx:119-121 | the filtered list is no longer than the list, and holds only elements of the list that pass the test |
| `TodoManager.Trim` | src/components/todo/TodoManager.tsx:68 | `s.trim()` is never longer than `s`, and a non-empty result neither starts nor ends with whitespace |
| `TodoManager.TrimStartRemovesPrefix` | src/components/todo/TodoManager.tsx:68 | trimming the start removes the longest whitespace prefix and nothing else |
| `TodoManager.TrimEndRemovesSuffix` | src/components/todo/TodoManager.tsx:68 | trimming the end removes the longest whitespace suffix and nothing else |
| `TodoManager.TrimIsMiddle` | src/components/todo/TodoManager.tsx:68 | `trim` gives the slice between the whitespace prefix and the whitespace suffix, which neither starts nor ends with whitespace |
| `TodoManager.TrimEmptyIffBlank` | src/components/todo/TodoManager.tsx:68 | `!s.trim()` holds if and only if every character of `s` is whitespace |
| `TodoManager.Utf16Length` | src/components/todo/TodoManager.tsx:54 | JavaScript's `length` lies between the character count and twice it, and equals the character count when every character is in the Basic Multilingual Plane |
| `TodoManager.GeoLat` | src/components/todo/TodoManager.tsx:80 | `geometry?.location?.lat` is present exactly when the geometry, its location and the latitude all are, and is then that latitude |
| `TodoManager.GeoLng` | src/components/todo/TodoManager.tsx:81 | the same for the longitude |
| `TodoManager.LocationOf` | src/components/todo/TodoManager.tsx:77-82 | the address is the place's formatted address; each coordinate is the geometry's value, or 0 when the geometry or the value is missing |
| `TodoManager.Enrichment` | src/components/todo/TodoManager.tsx:72-84 | a location is attached exactly when the trimmed location text is non-empty and the search succeeds with at least one place; it is then built from the first place. A location is always complete, because the model's search hits always carry an address |
| `TodoManager.FirstSuggestions` | src/components/todo/TodoManager.tsx:61 | missing content gives no suggestions; otherwise the first min(5, n) results, in order |
| `TodoManager.Toggled` | src/components/todo/TodoManager.tsx:113-117 | same length; `completed` flips exactly on todos with the id, and every other field of every todo is unchanged |
| `TodoManager.ToggleInvolution` | src/components/todo/TodoManager.tsx:113-117 | toggling the same id twice gives back the original list |
| `TodoManager.ToggleUnknownId` | src/components/todo/TodoManager.tsx:114-116 | toggling an id no todo has leaves the list unchanged |
| `TodoManager.Deleted` | src/components/todo/TodoManager.tsx:119-121 | the result holds only todos of the list, none with the deleted id |
| `TodoManager.DeleteProperties` | src/components/todo/TodoManager.tsx:119-121 | every todo with another id survives; no todo with the id remains; deleting twice equals deleting once |
| `TodoManager.DeleteKeepsOrder` | src/components/todo/TodoManager.tsx:120 | deleting from a concatenation deletes from each part, so the survivors keep their order |
| `TodoManager.DeleteUnknownId` | src/components/todo/TodoManager.tsx:120 | deleting an id no todo has leaves the list unchanged |
| `TodoManager.PendingTodos` | src/components/todo/TodoManager.tsx:148 | holds only todos of the list that are not completed |
| `TodoManager.CompletedTodos` | src/components/todo/TodoManager.tsx:147 | holds only todos of the list that are completed |
| `TodoManager.ViewsPartition` | src/components/todo/TodoManager.tsx:147-148 | the two views together hold each todo as often as the list does, so their lengths sum to the list's length |
| `TodoManager.AppendKeepsTitles` | src/components/todo/TodoManager.tsx:86-97 | appending a todo whose title trims to non-empty keeps every title non-blank |
| `TodoManager.ListOperationsKeepTitles` | src/components/todo/TodoManager.tsx:113-121 | toggling and deleting keep every title non-blank |
| `TodoManager.GetPriorityColor` | src/components/todo/TodoManager.tsx:123-130 | the colour is the fallback exactly when the string is none of "high", "medium" and "low" |
| `TodoManager.PriorityColorsDistinct` | src/components/todo/TodoManager.tsx:123-130 | each priority has its own colour, and none of them is the fallback colour for unknown strings |
| `TodoManager.Revived` | src/components/todo/TodoManager.tsx:40-44 | `createdAt` is always converted; `dueDate` is absent if and only if the stored value is missing or empty, and converted otherwise; all other fields are copied |
| `TodoManager.Loaded` | src/components/todo/TodoManager.tsx:40-44 | the loaded list has one todo per stored todo, in the same order, each converted as `Revived` states |
| `TodoManager.Saved` | src/components/todo/TodoManager.tsx:50 | a saved todo has its dates formatted, has a due date exactly when the todo has one, and copies every other field |
| `TodoManager.LoadSaveRoundTrip` | src/components/todo/TodoManager.tsx:37-50 | loading the saved list gives back the same list, for a date format that is never empty and parses back to the same time |
| `TodoManager.TodoList.constructor` | src/components/todo/TodoManager.tsx:23-33 | empty list, empty draft with priority medium, no suggestions, not loading, client on the configured URL |
| `TodoManager.TodoList.Restore` | src/components/todo/TodoManager.tsx:37-45 | an absent or empty slot leaves the list; otherwise the list is the stored todos converted |
| `TodoManager.TodoList.SearchLocation` | src/components/todo/TodoManager.tsx:53-65 | a query shorter than 3 code units clears the suggestions and searches nothing. Otherwise it posts one search; on success the suggestions are the first five results, and on failure they are unchanged. Nothing else changes |
| `TodoManager.TodoList.PickSuggestion` | src/components/todo/TodoManager.tsx:199-202 | the draft's location becomes the chosen suggestion's address, and the suggestions are cleared |
| `TodoManager.TodoList.ResolveLocation` | src/components/todo/TodoManager.tsx:72-84 | searches exactly when the trimmed location text is non-empty; reports failure exactly when that search fails; otherwise returns the enrichment |
| `TodoManager.TodoList.AddTodo` | src/components/todo/TodoManager.tsx:67-111 | a blank title changes nothing and posts no search. A failed search adds nothing and keeps the draft and suggestions. Otherwise exactly one todo is appended after the unchanged list, with the raw title, description, priority, id, creation time, `completed = false`, the due date parsed from the draft's text when that text is non-empty, and the enriched location; the draft is reset and the suggestions are cleared. `loading` ends false, and non-blank titles stay non-blank |
| `TodoManager.TodoList.DirectionsToTodo` | src/components/todo/TodoManager.tsx:132-138 | no call for a todo without a location; otherwise driving directions from "Current Location" to its address |
| `TodoManager.TodoList.ToggleTodo` | src/components/todo/TodoManager.tsx:113-117 | the list becomes `Toggled` of the old list; nothing else changes |
| `TodoManager.TodoList.DeleteTodo` | src/components/todo/TodoManager.tsx:119-121 | the list becomes `Deleted` of the old list; nothing else changes |

## Left out

- `fetch`, headers other than the content type, and `response.json()` (`mcp-client.ts:21-36`, `45-56`). These are network calls. The reply is an input, and a body that does not parse is `None`.
- The error message text `HTTP error! status: …` and `console.error` (`mcp-client.ts:33`, `38`). The error carries the status, not the text. Logging is I/O.
- `localStorage` reads and writes, `JSON.parse` and `JSON.stringify` (`TodoManager.tsx:37-50`). These are browser APIs. Only the per-todo conversion is modelled (`Revived`, `Saved`). A slot holding malformed JSON, which makes `JSON.parse` throw, is not modelled. The write-back after every change (`:48-51`) is not a field of the model.
- `new Date(...)` and `Date.now()` (`TodoManager.tsx:42-43`, `87`, `93-94`). These read the clock and parse dates. The id and the creation time are parameters. Date parsing (`new Date(text)`, in `addTodo` and on load) and date formatting are function parameters. Ids are not claimed to be unique.
- Coordinates and radii are JavaScript doubles, modelled as `real`. NaN and infinities do not exist in the model, so `lat || 0` on NaN, which gives 0, is not modelled.
- Search hits are assumed to carry a `formatted_address`. A hit without one would give a location whose address is `undefined` (`TodoManager.tsx:79`), and picking it as a suggestion would put `undefined` into the draft (`:200`). Neither is modelled.
- Strings are Dafny strings of Unicode scalar values, so they are assumed to be well-formed UTF-16. A JavaScript string holding a lone surrogate cannot be written, and `Utf16Length` never counts one.
- Place fields the todo list never reads (rating, types, phone, website, opening hours) are left out of `Place`.
- React scheduling. Overlapping `addTodo` or `searchLocation` calls whose replies arrive out of order are not modelled; each method runs atomically. The loading overlay and the disabled button (`:232`) are presentation.
- The form's plain field edits (`TodoManager.tsx:168`, `175`, `186`, `215`, `226`) are single assignments to the draft. The location edit also calls `searchLocation`, which is modelled.
- `getDirectionsToTodo` showing its result with `alert` (`TodoManager.tsx:139-144`). This is I/O; only the request it makes is modelled.
- Stored todos are assumed to have the shape the app saves. In particular their priority is one of low, medium and high.
- `src/components/GoogleMapsInterface.tsx`, `src/components/Navigation.tsx`, `src/app/page.tsx`, `src/app/layout.tsx` and `next.config.js` are presentation, routing and configuration.
