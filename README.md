# Book-purchase trace generator, modelled in Dafny

This project models `create_dataset.py`, the generator behind the book-purchase transaction
datasets. Each transaction walks a fixed service topology. It starts at the UI server and goes
through purchase, book availability, user credentials, card check, one card network, currency
conversion, shipping, inventory, review, ad and customer support. On the way it makes optional
calls to side services. Every handler records one hop with `server_process`. A hop is a Request
line from the previous hop to a chosen replica, then a Response line back, both carrying the
transaction's ten-digit id and integer clock values. The main loop runs ten iterations. Each
iteration simulates 1000 transactions, flattens their paths, reads each line's time back from
its third comma-separated field, and sorts the lines by that time.

The model is split into modules:

- `Delays`, `Probabilities`, `NumServers` (config.dfy) hold the delay ranges, the branch
  probabilities (in whole percent) and the replica counts.
- `Topology` holds one constructor per handler. It records the name, delay class and replica
  count each handler passes to `server_process`. For the table-driven handlers it also records
  the optional calls in source order and the mandatory call. The purchase, discount, gift-wrap
  and card-check handlers make their calls outside these tables, in `Traversal`.
- `Draws` models randomness as a tape of naturals read one position per `random.randint` or
  `random.random` call, in Python's evaluation order.
  - `randint(a, b)` is `a + tape(k) % (b - a + 1)`.
  - `random() < p` is `tape(k) % 100 < p`.
  - Every property below holds for every tape.
- `Log` holds the entry datatype and its formatting, plus the parse-back of the source field.
- `Text` holds integer printing and parsing, and the zero-padded id.
- `Hops` holds `server_process` as a function on the transaction state, and the hop-by-hop
  well-formedness invariant it keeps.
- `Traversal` holds the nested handlers of `simulate_process` as functions that thread the
  state. It is the specification of a transaction.
- `Process.Transaction` is the imperative form. It is a class whose one `state` field is updated
  in place by `ServerProcess` and by the handlers. Each method is proved to leave exactly the
  state the `Traversal` function computes.
- `Walk`, `Pairs`, `Parents`, `Quiet` and `Names` hold the inductive proofs over the call graph.
  `Trace` holds the facts about sequences of visited handlers. `Transaction` states the results
  for a whole transaction.
- `Batch` models the main loop: the task ids, the flattening, the time key, and an insertion sort
  proved sorted and a permutation.

Three behaviours of the code are kept as written:

- The card check draws a fresh second `random.random()` in its `elif` (create_dataset.py:229-234).
- The discount and gift-wrap handlers can be entered twice in all per transaction
  (create_dataset.py:149-177), for example a discount whose draw then calls the gift wrap.
- Delays are integers drawn by `randint` (create_dataset.py:91-92).

Every member is stated for every probability table. `Probabilities.Source` is the table the
source ships, and `Traversal.ShippedCards` is stated for it.

## Model

| member | source | states |
|---|---|---|
| Delays.Range | create_dataset.py:44-49 | every delay class is a range [lo, hi] with 1 <= lo <= hi, so every hop takes at least one second |
| Probabilities.Source | create_dataset.py:14-42 | every probability of the shipped table lies strictly between 0 and 1 |
| NumServers.Count | create_dataset.py:51-88 | every server type has at least one replica, so `randint(1, n)` is always defined |
| Topology.LogName | create_dataset.py:139-412 | no contract of its own: the name each handler passes to `server_process`; `Topology.Quirks` states the gift-wrap exception |
| Topology.DelayOf | create_dataset.py:139-412 | no contract of its own: the delay class each handler passes to `server_process`; `Delays.Range` states its bounds |
| Topology.ReplicaKey | create_dataset.py:139-412 | no contract of its own: the `num_servers` entry each handler passes to `server_process`; `Topology.Replicas` and `Topology.Quirks` state the count |
| Topology.Optionals | create_dataset.py:181-418 | no contract of its own: the optional calls of a table-driven handler, in source order, with their probabilities; `Topology.OptionalsRank`, `Topology.OptionalsGuarded`, `Topology.OptionalsOffSpine` and `Topology.OptionalsParents` state its shape |
| Topology.Next | create_dataset.py:138-418 | no contract of its own: the mandatory call that ends a table-driven handler; `Topology.NextRank` and `Topology.NextSpine` state its shape |
| Topology.Replicas | create_dataset.py:139-411 | the replica count a handler passes to `server_process` is at least 1 |
| Topology.Quirks | create_dataset.py:171-172 | the gift-wrap handler logs under the name "discount_server", and the American Express fraud check uses the limit-check replica count (20) |
| Topology.OptionalsRank | create_dataset.py:181-418 | every optional call in the `Optionals` table goes to a handler of lower rank; the purchase, discount, gift-wrap and card-check handlers make their calls outside the table, and the discount/gift-wrap pair ends through the flag (`Traversal.Flag`) |
| Topology.NextRank | create_dataset.py:138-418 | a handler has an entry in the `Next` table exactly when it is on the spine and is neither the card check (whose mandatory call is the card choice, `Traversal.CardChoice`) nor customer support; the entry goes to a lower rank |
| Topology.NextSpine | create_dataset.py:138-418 | a mandatory call in the `Next` table moves exactly one position along the twelve-stop spine |
| Topology.OptionalsGuarded | create_dataset.py:181-418 | the optional calls in the `Optionals` table are guarded by optional-call probabilities and never reach the discount/gift-wrap pair; the purchase, discount, gift-wrap and card-check handlers have no entries there, since their calls (to the pair and to the cards) are handled separately |
| Topology.OptionalsOffSpine | create_dataset.py:181-418 | no optional call in the `Optionals` table reaches a spine handler |
| Topology.OptionalsParents | create_dataset.py:194-412 | second-hand market and the AI chatbot are only ever the first optional call of their one parent |
| Topology.SpinePosFacts | create_dataset.py:138-391 | a spine position names the spine handler that stands there, and position 5 is exactly the card networks |
| Draws.RandInt | create_dataset.py:91-92 | `randint(a, b)` lies in [a, b] |
| Draws.RandIntOnto | create_dataset.py:91-92 | every value of [a, b] is drawn by some tape |
| Draws.Below | create_dataset.py:149-150 | no contract of its own: `random.random() < p` with p in whole percent; `Draws.BelowOutcomes` states it |
| Draws.BelowOutcomes | create_dataset.py:149-150 | a chance of 0 never fires, one of 100% always does, and any chance strictly between fires on some tape and not on another |
| Hops.HopDelay | create_dataset.py:98-106 | the delay lies in [lo + n/4, hi + 2(n/4)]; with one replica that is [lo, hi] |
| Hops.HopReplica | create_dataset.py:100-105 | the replica number lies in [1, n] |
| Hops.Hop | create_dataset.py:95-123 | no contract of its own; `Hops.HopFacts` states it |
| Hops.HopFacts | create_dataset.py:95-123 | a hop appends exactly a Request and a Response and one clock value and changes nothing else; the Request leaves from the previous hop at the last clock value, the Response swaps its ends after a delay within bounds, both carry the id, the destination is `name_m` with m in [1, n] (`name_1` with one replica), and the next clock value is the Response time plus 1 |
| Hops.Enter | create_dataset.py:95-123 | a handler's hop keeps the id, the flag and `total_delay`, extends the path, and keeps a well-formed path well formed |
| Hops.EnterNames | create_dataset.py:99-106 | a handler's Request goes to `name_m`, its logged name followed by a replica number m in [1, n], n being its replica count; earlier Requests keep this property |
| Hops.NextEntryLater | create_dataset.py:96-120 | in a well-formed path each entry is strictly later than the one before |
| Hops.TimesIncrease | create_dataset.py:96-120 | in a well-formed path the times strictly increase along the whole path |
| Hops.EntryOfTransaction | create_dataset.py:114-118 | every entry carries the transaction id, the entries alternate Request and Response starting with a Request, and no endpoint holds a comma |
| Hops.NextSourcePlain | create_dataset.py:108-111 | on a well-formed path the source read back from the last line is the source of the last entry, or "user" on an empty path, and it holds no comma |
| Log.PrevServer | create_dataset.py:108-111 | on an empty path the previous server is "user"; otherwise, when the last entry's source holds no comma, it is that source |
| Log.Format | create_dataset.py:114-115 | no contract of its own: the f-string of a Request or Response line; `Log.SourceRoundTrip` and `Batch.TimeKeyOfFormat` state that its source and time fields read back |
| Log.Render | create_dataset.py:117-118 | no contract of its own: the `path` list, one line per entry; `Batch.RenderedTimes` states it |
| Log.SourceRoundTrip | create_dataset.py:109-115 | `line.split(", ")[0][1:]` recovers the source of the entry the line was formatted from, when that source holds no comma |
| Text.IntToStringRoundTrip | create_dataset.py:448 | `int()` of a printed integer is that integer |
| Text.IntToString | create_dataset.py:114-115 | no contract of its own: `str()` of an integer inside the f-strings; `Text.IntToStringRoundTrip` and `Text.IntToStringPlain` state it |
| Text.ParseInt | create_dataset.py:448 | no contract of its own: `int()` of a stripped field, `None` where Python raises; `Text.IntToStringRoundTrip` states it |
| Text.Strip | create_dataset.py:448 | no contract of its own: `str.strip()` over the characters `str.isspace()` accepts; `Text.StripPadded` states it |
| Text.SplitOn | create_dataset.py:448 | `split(',')` yields at least one part; `Text.SplitOnHead` states that a comma-free head splits off as the first part |
| Text.BeforeCommaSpace | create_dataset.py:109 | no contract of its own: `split(", ")[0]`; `Text.BeforeCommaSpaceHead` and `Log.SourceRoundTrip` state it |
| Text.FormatId | create_dataset.py:128 | no contract of its own; `Text.FormatIdRoundTrip` states it |
| Text.FormatIdRoundTrip | create_dataset.py:128 | `f'{uid:010d}'` is all digits, at least ten long, exactly ten below 10^10, and reads back as `uid` |
| Traversal.Init | create_dataset.py:127-133 | the initial state has the padded id, an empty path, one clock value in [0, 1000], the flag clear and `total_delay` 0 |
| Traversal.Run | create_dataset.py:125-420 | no contract of its own: the UI handler run from the initial state; `Process.SimulateProcess`, `Transaction.RunPath` and the other `Transaction.Run*` lemmas state it |
| Traversal.Simulate | create_dataset.py:125-420 | no contract of its own: `Traversal.Run` with the handlers' own names; `Batch.SimulatedTimes` states it |
| Traversal.Visit | create_dataset.py:138-418 | a handler extends the path, records itself first, never clears the flag, never changes `total_delay`, and keeps the path well formed |
| Traversal.Skip | create_dataset.py:149-150 | one draw advances the tape position, keeps the flag, and only extends the state |
| Traversal.GrowsTrans | create_dataset.py:125-418 | extending the state is transitive |
| Traversal.CardChoice | create_dataset.py:229-234 | the card check chooses exactly one of Visa, American Express and Mastercard |
| Traversal.ShippedCards | create_dataset.py:229-234 | with the shipped probability table each of Visa, American Express and Mastercard is chosen by some tape |
| Traversal.Calls | create_dataset.py:138-418 | what a handler does after its hop only extends the state |
| Traversal.Purchase | create_dataset.py:144-159 | the purchase handler only extends the state |
| Traversal.PurchaseRest | create_dataset.py:153-159 | the rest of the purchase handler only extends the state |
| Traversal.Card | create_dataset.py:226-234 | the card check only extends the state |
| Traversal.Common | create_dataset.py:181-418 | a table-driven handler only extends the state |
| Traversal.Partner | create_dataset.py:162-177 | the discount/gift-wrap tail only extends the state |
| Traversal.VisitOptionals | create_dataset.py:181-418 | a handler's optional calls only extend the state |
| Walk.VisitWalk | create_dataset.py:138-418 | the spine positions a handler walks are exactly those from its own to the end of the spine |
| Pairs.VisitPairs | create_dataset.py:144-177 | a handler adds at most its bound of discount/gift-wrap entries |
| Pairs.PurchaseRestPairs | create_dataset.py:153-159 | after a discount the purchase handler never calls the gift wrap; otherwise it adds at most two pair entries |
| Pairs.PartnerPairs | create_dataset.py:162-177 | once the flag is set the pair tail adds no pair entry; otherwise it adds at most one |
| Parents.VisitParents | create_dataset.py:194-412 | in the visit trace, second-hand market follows external inventory and the AI chatbot follows the premium customer check |
| Quiet.VisitQuiet | create_dataset.py:138-418 | with every optional probability at 0, a spine handler only ever enters spine handlers |
| Names.VisitNames | create_dataset.py:95-123 | every Request a handler and its calls add goes to `name_m` with m in [1, n] for the handler entered |
| Trace.WholeSpine | create_dataset.py:138-391 | a visit trace that walks the whole spine holds the twelve spine handlers in order, through one card |
| Trace.OneCard | create_dataset.py:226-304 | such a trace holds the card check once, exactly one card network and currency conversion once |
| Transaction.RunPath | create_dataset.py:125-420 | a transaction's path is well formed, each Request goes to `name_m` with m in [1, n] for the handler entered, its id is the padded uid, `total_delay` stays 0, and it starts with a Request from "user" at a time in [0, 1000] |
| Transaction.RunTimesIncrease | create_dataset.py:96-120 | the times of a transaction's entries strictly increase |
| Transaction.RunSpine | create_dataset.py:138-391 | every transaction visits the twelve spine handlers in order |
| Transaction.RunOneCard | create_dataset.py:226-304 | every transaction visits exactly one card network, and the card check and currency conversion once each |
| Transaction.RunPairs | create_dataset.py:144-177 | the discount and gift-wrap handlers are entered at most twice in all |
| Transaction.RunParents | create_dataset.py:194-412 | second-hand market only follows external inventory, and the AI chatbot only follows the premium customer check |
| Transaction.RunQuiet | create_dataset.py:138-418 | with no optional call able to fire, a transaction is exactly the spine: twelve handlers and 24 entries |
| Process.Transaction.constructor | create_dataset.py:127-133 | the new object holds the initial state of `Traversal.Init` |
| Process.Transaction.NextInt | create_dataset.py:91-92 | `randint(a, b)` reads one tape position and changes nothing else |
| Process.Transaction.NextChance | create_dataset.py:149-150 | `random() < p` reads one tape position and changes nothing else |
| Process.Transaction.DrawHop | create_dataset.py:96-106 | the draws of a hop give the Response time and replica label of `Hops.HopDelay` and `Hops.HopReplica` |
| Process.Transaction.ServerProcess | create_dataset.py:95-123 | updating the state in place leaves exactly the state of `Hops.Hop` |
| Process.Transaction.Enter | create_dataset.py:139-412 | a handler's first line leaves the state of `Hops.Enter` |
| Process.Transaction.Visit | create_dataset.py:138-418 | running a handler leaves the state of `Traversal.Visit` |
| Process.Transaction.Calls | create_dataset.py:138-418 | a handler's calls leave the state of `Traversal.Calls` |
| Process.Transaction.Purchase | create_dataset.py:144-159 | the purchase handler leaves the state of `Traversal.Purchase` |
| Process.Transaction.PurchaseRest | create_dataset.py:153-159 | the gift-wrap draw and the mandatory call leave the state of `Traversal.PurchaseRest` |
| Process.Transaction.Card | create_dataset.py:226-234 | the card check leaves the state of `Traversal.Card` |
| Process.Transaction.Common | create_dataset.py:181-418 | a table-driven handler leaves the state of `Traversal.Common` |
| Process.Transaction.Partner | create_dataset.py:162-177 | the discount/gift-wrap tail leaves the state of `Traversal.Partner` |
| Process.Transaction.VisitOptionals | create_dataset.py:181-418 | the optional calls leave the state of `Traversal.VisitOptionals` |
| Process.SimulateProcess | create_dataset.py:125-420 | `simulate_process` returns the rendered path of `Traversal.Run` |
| Batch.TaskIdsRange | create_dataset.py:436 | iteration i gets exactly the ids i*1000+1 .. (i+1)*1000, in increasing order |
| Batch.TaskIds | create_dataset.py:436 | no contract of its own; `Batch.TaskIdsRange` states it |
| Batch.TaskIdsDisjoint | create_dataset.py:436 | two iterations share no id |
| Batch.TaskIdFormat | create_dataset.py:436 | every id of the ten iterations prints as ten digits and reads back as itself |
| Batch.Paths | create_dataset.py:436-438 | no contract of its own: `pool.starmap` over an iteration's tasks, as a sequential map; `Batch.PathsParse` states it |
| Batch.Flatten | create_dataset.py:443 | no contract of its own; `Batch.FlattenMembers` states it |
| Batch.TimeKey | create_dataset.py:448 | no contract of its own: `int(x.split(',')[2].strip())`, with `None` where Python raises; `Batch.TimeKeyOfFormat` states it |
| Batch.FlattenMembers | create_dataset.py:443 | a line is in the flattened list exactly when it is in one of the paths |
| Batch.TimeKeyOfFormat | create_dataset.py:448 | the third comma field of a formatted entry, stripped and parsed, is the entry's time, when the entry's two endpoints hold no comma |
| Batch.RenderedTimes | create_dataset.py:448 | every line of a well-formed path yields its entry's time |
| Batch.SimulatedTimes | create_dataset.py:448 | every line of a simulated transaction yields its entry's time |
| Batch.PathsParse | create_dataset.py:436-448 | no line of an iteration makes the time parse fail |
| Batch.InsertAt | create_dataset.py:450 | inserting after the last key not greater than the new one keeps the list sorted |
| Batch.Insert | create_dataset.py:450 | inserting keeps the list sorted and adds exactly the new element |
| Batch.SortBy | create_dataset.py:450 | the output is sorted by key and a permutation of the input |
| Batch.Merge | create_dataset.py:443-450 | the result is None exactly when some line has no integer third field; otherwise it is sorted by time and a permutation of the flattened paths |
| Batch.Dataset | create_dataset.py:436-450 | an iteration's dataset is sorted by time and is a permutation of all its transactions' lines |
| Batch.Datasets | create_dataset.py:434-450 | the main loop yields ten datasets, each the dataset of its iteration |

## Left out

- `spark.py` is not part of this model. It only sets up a Spark session.
- The `multiprocessing.Pool` and `starmap` parallelism is modelled as a sequential map. The transactions share no state.
- pandas, CSV writing, `os.chdir`, the timing code and the `print` calls are left out. They are I/O.
- The random source is a parameter, not Python's Mersenne Twister. Each transaction gets its own tape. That is sound because every property holds for every tape, and `Batch.Paths` takes any family of tapes, including the slices of one worker's stream.
- `random.random()` is compared against probabilities in whole percent. No float rounding is modelled, and no distribution is claimed.
- Batch.SortBy: the order of lines with equal times is not claimed. The model promises only sortedness and a permutation, because pandas `sort_values` is not stable.
- Batch.Merge: the `None` result stands for the `IndexError` that `split(',')[2]` raises on a line with fewer than three fields, and for the `ValueError` that `int()` raises on a field that is not an integer. The proof shows neither happens for generated paths.
- Text.ParseInt: the parser accepts an optional sign and ASCII digits only. Python's `int()` also accepts underscores and non-ASCII digits, which never occur in generated lines.
- `random.randint` raising on an empty range is not modelled. Every range in the source is non-empty, as `Delays.Range` and `NumServers.Count` state.
- The default argument `num_servers=10` of `server_process` is not modelled, because every call passes a count.
- The `data_id` argument of `simulate_process` is not modelled, because the function never reads it.
- `probabilities['MASTERCARD']` is not modelled, because the code never reads it.
- `total_delay` is kept and stays 0, because its update is commented out.
- The commented-out `formatted_timestamps` line is not modelled.
- The 36 handlers are not written as 36 functions. They are modelled through one table of optional and mandatory calls, plus special cases for the purchase, discount, gift-wrap and card-check handlers.
- The state carries two fields the source does not have: `drawn`, the tape position, and `visited`, the handlers entered. They exist for the proofs.
