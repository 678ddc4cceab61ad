# NEO database: a Dafny model

This project models the in-memory database of near-Earth objects (NEOs) and their close approaches to Earth. It covers the two record types (`NearEarthObject` and `CloseApproach` in `models.py`) and the database that links them (`NEODatabase` in `database.py`).

The database is built from a sequence of NEOs and a sequence of close approaches. It builds two indices:

- a designation index, which files every NEO under its primary designation;
- a name index, which files only the NEOs whose name is truthy.

Both indices are dict comprehensions, so a later NEO with the same key replaces an earlier one. The database then makes one pass over the approaches in input order. Each approach whose designation is in the designation index gets that NEO as its `neo` and is appended to that NEO's `approaches` list. Every other approach is left alone. The two lookups are map `get`s and return `None` (here `null`) on a miss. As implemented, `query` yields every stored approach and ignores its filters.

Files:

- `wrappers.dfy` (module `Wrappers`): `Option` and `Result`.
- `models.dfy` (module `Models`): the two record classes and their derived values.
- `database.dfy` (module `Database`): the indices, the linking pass, the lookups and the queries.
- `scenario.dfy` (module `Scenario`): a client method, `ErosScenario`. It builds Eros with one approach and adds an approach of an unknown NEO. It then asserts the lookups, the links and both query results, using only the contracts above.

Representation choices:

- A Python float is `Float = NaN | Num(real)`. The NaN sentinel is its own constructor, and Python truthiness is written out: only `Num(0.0)` is falsy.
- A name is `Option<string>`, where `None` stands for Python's `None`. A name is truthy when it is present and not `""`.
- The objects are Dafny classes. The fields that the core never reassigns are `const`: designation, name, diameter and hazard flag of an NEO; designation, time, distance and velocity of an approach. So "designations, names and the approach collection are not changed" holds by construction. The only mutable fields are `NearEarthObject.approaches` and `CloseApproach.neo`, which the linking pass updates in place. Its `modifies` clause names exactly the given NEOs and approaches.
- The database's collections and indices are `const` fields, because they are assigned once in the constructor. The lookups are Dafny functions, so they cannot change any state.
- The `CloseApproach` designation is a `const`, so it has no setter and always returns the value given at construction.
- `CloseApproach.__init__` can raise, which a Dafny constructor cannot. It is modelled by the module method `NewCloseApproach`, which returns a `Result` whose error is the failed assertion. The plain class constructor only stores fields that have already been checked.
- Python's keyword arguments become parameters with the same defaults. A float argument is a `FloatArg`: omitted, a float, or a value of another type.
- A time is an opaque `Timestamp` holding the calendar-date string it was parsed from.
- Query filters are total functions `CloseApproach -> bool`, and the query's generator is modelled as the sequence it yields.

## Model

| member | source | states |
|---|---|---|
| `Models.DiameterOrNaN` | models.py:56-58 | A missing or zero diameter becomes NaN, and any other diameter is kept. The stored diameter is never zero. |
| `Models.NearEarthObject.constructor` | models.py:49-62 | A new NEO takes its designation, name, diameter rule and hazard flag from the arguments. Its name is `None` when omitted, and its approach list starts empty. |
| `Models.NearEarthObject.Fullname` | models.py:64-67 | The full name starts with the designation. It equals the designation exactly when the name is falsy; otherwise the designation is followed by ` (name)`. |
| `Models.FullnameDeterminesName` | models.py:64-67 | Two NEOs with the same designation and the same full name agree on whether they have a name, and then on the name itself. |
| `Models.NearEarthObject.Serialize` | models.py:84-94 | The record has exactly the keys `designation`, `name`, `diameter_km` and `potentially_hazardous`, each mapped to the matching field. |
| `Models.SerializeRoundTrip` | models.py:84-94 | The four fields can be read back unchanged from the serialized record. |
| `Models.ParsedTime` | models.py:132-135 | A truthy calendar date is kept as a parsed timestamp of that date. A missing or empty date leaves the time absent. |
| `Models.ApproachMeasures` | models.py:136-140 | An omitted distance or velocity becomes NaN, and a float, zero included, is kept. A non-float distance fails with the distance assertion. Otherwise a non-float velocity fails with the velocity assertion. |
| `Models.NewCloseApproach` | models.py:126-143 | Construction fails exactly when `ApproachMeasures` fails, with the same error. On success the new approach holds the designation, the parsed time, the checked distance and velocity, and the given `neo` (`null` by default). |
| `Models.CloseApproach.constructor` | models.py:145-151 | The designation stored at construction is a constant: it reads back as given and has no setter. |
| `Models.CloseApproach.TimeStr` | models.py:168-170 | An absent time reads as `an unknown time`. A present time is formatted by the given formatter. |
| `Database.IndexBy` | database.py:35-38 | Every key of a comprehension index maps to an input NEO that is filed under that key. |
| `Database.LastKeyed` | database.py:35-38 | Reference definition of "last one wins": the last position of an NEO filed under a key, and no later NEO has that key. |
| `Database.IndexByLastWins` | database.py:35-38 | A key is in the index exactly when some NEO is filed under it, and it then maps to the last such NEO in the input. |
| `Database.NEODatabase.constructor` | database.py:25-45 | The constructor keeps both collections, and both indices equal their comprehensions. Each NEO's list becomes its old list followed by the approaches linked to it, in input order. Each approach whose designation is indexed points to that NEO, and every other approach keeps its old `neo`. |
| `Database.LinkApproaches` | database.py:41-45 | The linking loop proves the constructor's link postconditions against `LinkedTo`. This holds even when an approach or an NEO occurs more than once. |
| `Database.LinkOne` | database.py:42-45 | One iteration of the linking loop moves both halves of the loop's state one approach forward: the NEO lists (`ListsUpTo`) and the approach links (`LinksUpTo`). It changes only the current approach and the NEO it is linked to. |
| `Database.LinkedTo` | database.py:41-45 | Only approaches from the input whose designation the index maps to the NEO are appended to it. |
| `Database.LinkedExactlyOnce` | database.py:41-45 | A matched approach is appended to its NEO once per occurrence in the input. An unmatched approach, or one matched to another NEO, is appended zero times. |
| `Database.LinkedToDesignation` | database.py:41-45 | In the designation index, the approaches linked to the NEO under `d` are exactly the approaches with designation `d`, in input order. |
| `Database.LinkedTotal` | database.py:35-45 | Over the distinct keys of the designation index, the number of approaches appended to all NEO lists equals the number of input approaches whose designation is indexed. |
| `Database.NEODatabase.GetNeoByDesignation` | database.py:47-55 | The result is non-null exactly when some input NEO has the designation. It is then an NEO with that designation: the last one in the input. |
| `Database.NEODatabase.GetNeoByName` | database.py:57-65 | The result is non-null exactly when the name is non-empty and some input NEO has it. It is then the last such NEO, whose name is truthy. |
| `Database.NEODatabase.Query` | database.py:67-83 | As implemented, the query yields exactly the stored approaches in storage order, whatever the filters. |
| `Database.NEODatabase.QueryMatching` | database.py:67-80 | The documented query yields `Matching(approaches, filters)`. It evaluates filters for each approach only until one rejects it. |
| `Database.MatchingMembers` | database.py:70-71 | An approach is in the documented result exactly when it is stored and every filter accepts it. |
| `Database.MatchingNoFilters` | database.py:73-76 | With no filters, the documented result is every stored approach in storage order. |
| `Database.MatchingDisjoint` | database.py:70-71 | Two filters that accept no approach in common yield nothing. |
| `Database.QueryIgnoresFilters` | database.py:81-83 | A filter that rejects everything yields nothing in the documented query. On a non-empty database that differs from what `Query` returns. |

## Findings

| source | as written | input that shows it | evidently intended | confidence | as-written member | corrected member |
|---|---|---|---|---|---|---|
| database.py:81-83 | `query` yields every stored approach and ignores `filters` (a TODO left in place) | any non-empty database queried with a filter that rejects everything | yield only the approaches that every filter accepts (database.py:70-71), in storage order | high: the TODO says so; not executed | `Database.NEODatabase.Query`, with `Database.QueryIgnoresFilters` | `Database.NEODatabase.QueryMatching`, with `Database.MatchingMembers` and `Database.MatchingNoFilters` |

## Left out

- Parsing the CSV and JSON data files (`extract.py`) is left out. It is file I/O; the database receives the two sequences ready-made.
- `cd_to_datetime` and `datetime_to_str` are not part of this model. A parsed time is the opaque `Timestamp` of its calendar-date string, and the datetime assertion on it always holds here. `TimeStr` takes the formatter as a parameter, and `CloseApproach.serialize`, which only formats, is left out.
- `__str__` and `__repr__` of both classes are left out. They only do fixed-point float formatting.
- IEEE float semantics are left out. NaN is a distinct constructor, and infinities are not modelled.
- Models.ParsedTime: a falsy time other than an absent one (`""`) is stored as absent. Python keeps the `""` itself, but every modelled reader of the time (`time_str`) only tests its truthiness.
- Models.NearEarthObject.constructor: the designation is a required string and the hazard flag a `bool` defaulting to `false`. Python would store `None` for an omitted designation or hazard flag; the loaders always pass both.
- Models.NewCloseApproach: the designation is a required string; Python would store `None` when it is omitted.
- The Python class attributes that the core never reassigns are `const` here. The model therefore does not capture code outside the core that reassigns them.
- Query laziness is left out. The generator is modelled as the finite sequence it yields, so single-pass iteration and partial consumption are not modelled.
- Ordering and limiting of query results are left out. The source has no code for them.
- The concrete filter predicates (date, distance, velocity, diameter, hazard) are left out. They are not part of the modelled source; a filter is any total predicate on an approach.
