# Distance_AI agent core in Dafny

Distance_AI is "Diya", a receptionist assistant that answers questions about a
fixed roster of vendor companies. It also answers proximity questions by
geocoding addresses and computing distances. This project models the
deterministic parts of `agent.py`:

- **State-name normalisation** (`StateNames`): the alias table `STATE_MAP`,
  looked up with the raw text as the default.
- **India bounding box** (`Geo`): `is_in_india`, a closed rectangle test on
  latitude and longitude.
- **The `get_location` tool** (`Geocoding`). For each address it calls the
  geocoder up to three times and fills a result map. Each address maps either
  to its coordinates as text or to `["Not found", reason]`.
  - The geocoder is an oracle: `geocode(n)` is the outcome of the n-th call,
    within one run of the tool, of the rate-limited `geocode` wrapper
    (agent.py:134). That wrapper may itself retry a failing service request
    and return no location after its last try; the oracle sees only what the
    wrapper returns or raises. An outcome is `Raise(msg)`, `NoResult` or
    `Loc(lat, lon)`.
  - Python's `str()` of a float is a parameter `str: real -> string`.
  - The method `GetLocation` keeps the source's nested loops and its `break`.
    It is proved equal to the specification function `Process`, and the
    lemmas about `Process` state what the tool promises.
- **Roster text** (`Roster`): one line per company,
  `sno. name |  name, city, state | address`, joined by line breaks. Note the
  double space after the first bar. `Split` cuts a text at every occurrence of
  a separator; it is the inverse of `Join` for pieces free of the separator.
  When no field of any company contains a line break, the round trip
  `Split(Join(lines)) == lines` shows that the text holds exactly one line per
  company, in order. A field with a line break in it (an address written over
  two lines, say) spreads its company over several lines.
- **System-message growth** (`Prompt`): `SystemMessage` is a class with one
  string field. Every `call_model` step appends a `### Data` block to it in
  place. Ghost fields record the initial text and the rosters seen so far.
  `Valid()` ties the content to the function `Grown`, and the lemmas about
  `Grown` show that the content only grows.

Two behaviours of the code are easy to misread. The model follows the code in
both:

- The `# retry up to 3 times` comment (agent.py:140) suggests that every failed
  lookup is retried. The `break` at agent.py:148 means that only an exception
  leads to another attempt: a call that returns no location, or a location
  outside the box, ends the attempts for that address.
- `last_error` is a local of the whole tool run and is never reset per address
  (agent.py:151, 158). An address that failed without an exception reports the
  most recent exception of the run, which may have come from an earlier
  address. `StaleErrorCarriesOver` shows a concrete case.

## Model

| member | source | states |
|---|---|---|
| `StateNames.NormalizeState` | agent.py:182 | a listed alias becomes one of the seven full names; a full name and any unlisted text come back unchanged |
| `StateNames.CanonicalNamesAreTableValues` | agent.py:22-37 | the seven full names are exactly the values of the alias table |
| `StateNames.NormalizeKnownAliases` | agent.py:22-37 | every alias in the table, with and without dots, maps to its full name, e.g. "MP" to "Madhya Pradesh", "C.G" to "Chhattisgarh", "Orissa" to "Odisha" |
| `StateNames.NormalizeIdempotent` | agent.py:22-37 | normalising an already normalised name changes nothing |
| `StateNames.NormalizeAvoids` | agent.py:22-37 | normalisation never introduces a line break or a column bar |
| `Geo.IsInIndia` | agent.py:81-83 | a point is accepted exactly when 6 <= lat <= 38 and 68 <= lon <= 98 |
| `Geo.IsInIndiaBounds` | agent.py:81-83 | every bound is inclusive: all four corners of the box are accepted |
| `Geo.IsInIndiaRectangle` | agent.py:81-83 | the accepted region is a rectangle: swapping coordinates between accepted points, or taking a point between them, stays accepted |
| `Geocoding.Attempts` | agent.py:140-151 | the attempts for one address use at least one and at most the budgeted number of geocoder calls |
| `Geocoding.Entry` | agent.py:153-159 | every result entry is a two-element list |
| `Geocoding.Process` | agent.py:136-161 | processing n addresses makes between n and 3n calls of the geocode wrapper |
| `Geocoding.RunAt` | agent.py:138-151 | the i-th address uses one to three geocoder calls, starting where the previous addresses stopped |
| `Geocoding.GetLocation` | agent.py:121-161 | the nested retry loops build exactly the result map of `Process` |
| `Geocoding.ProcessKeys` | agent.py:136-161 | the keys of the result map are exactly the input addresses |
| `Geocoding.AttemptsShape` | agent.py:140-151 | within one address's attempts every call but the last raised, and attempts that end before the budget is used up end with a call that did not raise; the address gets coordinates exactly when one of its calls returned a location inside the box, and then they are that location |
| `Geocoding.AttemptsLastError` | agent.py:149-151 | the error carried out of an address's attempts is the most recent exception message among all calls so far |
| `Geocoding.AttemptsEntry` | agent.py:143-159 | given that the error carried in is the most recent exception so far, an address's entry holds the in-box location's coordinates when one of its calls returned one, and otherwise "Not found" with the latest exception message or "Error" |
| `Geocoding.RunAtFacts` | agent.py:138-159 | for the i-th address: all its calls but the last raised, an early stop follows a call that did not raise, and its entry is as in `AttemptsEntry` |
| `Geocoding.ProcessLastError` | agent.py:149-158 | after any prefix of the addresses, the tool's last error is the message of the most recent exception in the whole run, or none |
| `Geocoding.LastOccurrenceWins` | agent.py:138-159 | a repeated address is processed again, and its entry is the one computed for its last occurrence |
| `Geocoding.ResultForAddress` | agent.py:138-159 | an address's entry: one to three calls, all but the last raised; `[str(lat), str(lon)]` exactly when one returned a location inside the box; otherwise "Not found" with the latest exception message of the run, or "Error" if there was none |
| `Geocoding.AttemptsAllRaise` | agent.py:140-151 | three raising calls use up the attempts, find no coordinates and leave the third message as the last error |
| `Geocoding.AllAttemptsRaise` | agent.py:140-159 | for any list and any position of an address's last occurrence: when its three calls all raise, it uses exactly three calls and its entry is "Not found" with the third call's message |
| `Geocoding.NonMatchNotRetried` | agent.py:142-158 | for any list and any position of an address's last occurrence: when its first call returns no location or a location outside the box, it uses that one call only and its entry is "Not found" with the most recent exception message of the run so far (possibly an earlier address's), or "Error" if none occurred |
| `Geocoding.StaleErrorCarriesOver` | agent.py:149-158 | an address that never raised can report an earlier address's exception message |
| `Roster.Join` | agent.py:180 | joining no lines gives the empty text, and joining one line gives that line |
| `Roster.SplitJoin` | agent.py:180-185 | lines free of the separator come back unchanged when the `"\n".join` text is split again |
| `Roster.RosterLine` | agent.py:182 | the f-string line of a company is its three columns joined by bars |
| `Roster.RosterText` | agent.py:180-185 | an empty or missing company list gives the empty text, and a single company gives exactly its line |
| `Roster.RosterLines` | agent.py:181-184 | one roster line per company, in roster order |
| `Roster.RosterLineColumns` | agent.py:182 | when no field of the company contains a bar, a roster line has three bar-separated columns, "sno. name ", "  name, city, normalised state " and " address", so a double space follows the first bar |
| `Roster.RosterLineSingle` | agent.py:182 | a roster line has no line break when the company's fields have none |
| `Roster.AliasRendersAsFullName` | agent.py:182 | a company listed under an alias renders the same line as one listed under the full name |
| `Roster.RosterTextLines` | agent.py:180-185 | when no field of any company contains a line break, the roster text split at line breaks gives back the roster lines in order; an empty or missing company list gives the empty text |
| `Prompt.DataBlock` | agent.py:186-190 | a data block is the fixed heading, then the roster text, then a final line break |
| `Prompt.SystemMessage.constructor` | agent.py:170 | the message starts with the persona text and has seen no roster |
| `Prompt.SystemMessage.CallModel` | agent.py:179-192 | the old content is kept as a prefix and one data block for the current roster is appended; the prompt is the message followed by the conversation |
| `Prompt.GrownPrefix` | agent.py:186-190 | every earlier content is a prefix of every later one |
| `Prompt.GrownLength` | agent.py:186-190 | after k model steps the content is at least k times the heading plus a line break longer than the initial text |
| `Prompt.GrownEndsWithLatestRoster` | agent.py:186-190 | the content ends with the data block of the latest roster |

## Left out

- `get_distance` (agent.py:86-117): the haversine formula uses floating-point `sin`, `cos`, `asin` and `sqrt`, which Dafny has no faithful counterpart for. The `float()` parse errors belong to the Python runtime.
- The language model, `bind_tools`, the graph wiring, `ToolNode`, `tools_condition` and checkpointing (agent.py:164-209) are foreign libraries. `CallModel` stops at building the prompt and does not model the reply.
- `get_companies` (agent.py:173-176) is an HTTP fetch. The roster is a parameter of `CallModel`.
- The `Nominatim` client, the `RateLimiter` wrapper and the `time.sleep(2)` backoff (agent.py:133-134, 150) are I/O and wall-clock timing. The wrapper's throttling and its own retries of service errors happen inside one oracle call: the model sees only the wrapper's returned value or raised exception, so its call count is the count of wrapper calls, not of service requests.
- The interactive console loop (agent.py:212-229) is not modelled.
- The persona text `SYSTEM_MESSAGE` (agent.py:40-73) is the constructor's argument and is not reproduced.
- `GetLocation`: returns a map, so the insertion order of Python's dict is not modelled.
- `Roster.Company`: record fields are text that is already rendered. A missing field would raise `KeyError` in the source, and that path is not modelled.
- Messages in the prompt are plain strings rather than message objects.
- `CallModel`: model steps are assumed to run one at a time. `system_message` is one module-level object (agent.py:170), and the synchronous `chat` handler (main.py:29) runs in a thread pool, so two requests can interleave the read-modify-write `+=` at agent.py:186 and lose a data block. The promise that the content only grows (`GrownPrefix`, `GrownLength`) holds only for steps that do not overlap.
- google_maps_api.py, positionstack_api.py and geocode_api.py are interchangeable HTTP geocoding clients and are not part of this model. Neither are main.py (the web front end) and test.py.
