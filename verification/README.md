# MoteMovil conversation core in Dafny

MoteMovil is a Telegram bot that lets a user declare themselves a driver
("conductor") or a passenger ("pasajero"), share their location, and then type
their trip data, which is stored as a row of the `viajes` table. This project
models the bot's only decision logic: the per-user conversation state machine
of `main.py` and its "one open trip per user" guard. The four message handlers
and the dispatcher's first-match routing are folded into one pure function
`Bot.Step(world, event)`. `world` holds the session storage (a map from user id
to state and data) and the trip store (an append-only sequence of records).

Files and modules:

- `wrappers.dfy`, module `Wrappers`: `Option`.
- `viajes.dfy`, module `Viajes`: trip records, the open-trip query and guard, and
  the pairwise invariant "at most one open record per user" together with its
  equivalence to "the guard's query never returns two rows".
- `sesion.dfy`, module `Sesion`: the states `Idle | EsperandoUbicacion |
  EsperandoDatosIA`, the session data (`rol`, `lat`, `lon`, each possibly absent)
  and the key-presence predicate.
- `bot.dfy`, module `Bot`: the role buttons, the role derivation, the events,
  the registration order and routing, the three stateful handlers, `Step`, and
  `Run` (a sequence of updates).
- `invariantes.dfy`, module `Invariantes`: the reachability invariant, its
  preservation by every update, the headline theorem, and `Serve`, the polling
  loop as a method.

Modelling choices:

- A data key that the dictionary lacks is an `Option` field set to `None`.
  Reading a missing key raises `KeyError` in the source; here the handler
  returns the reply `Crashed`. `RecibirUbicacion` updates the data and the state
  before it reads `rol` (main.py:84-89), so its crash path keeps those changes.
  `ProcesarDatosIA` builds the row before inserting it (main.py:105-111), so its
  crash path changes nothing. `Invariantes.NeverCrashes` proves that neither path
  can be reached from empty storage.
- A user the storage has never seen reads as `Idle` with empty data (`Fresh`).
  Clearing the state writes `Fresh` back.
- Events are `Start` (the `/start` command), `Text`, `Location` and `Other` (a
  message with neither text nor location, such as a photo). The record's
  `rutaRaw` is the message text, so it is `None` for a location or other
  message that arrives while the bot waits for the trip data.
- Replies are abstract kinds (`Welcome`, `OpenTripNotice(rol)`, `AskLocation`,
  `AskTripData(rol)`, `Registered`, `Crashed`, `Silent`), not the message text.
- Coordinates are `real` values that are stored and never computed with.
- Role buttons are matched exactly. The role is `Conductor` exactly when the
  button text contains "conductor".

`main.py` has no identity-verification gate, no "finish" or "cancel" control
inputs, no extraction call, no matching, and no multi-field collection
sequence. It also does not re-prompt on unexpected input: while waiting for the
trip data, a location message is stored as a trip whose text is absent. The
cancel button of the location keyboard has no handler at all
(`Bot.CancelIsIgnored`), and no code changes a trip's `estado`. So once a user
has an open trip, every later role button is refused (`Invariantes.OpenTripIsFinal`).

## Model

| member | source | states |
|---|---|---|
| Viajes.SelectOpen | main.py:46 | The query returns only records of the given user whose `estado` is "activo" or "en_progreso", includes every such record of the store, and adds nothing that is not in the store |
| Viajes.TieneViajeActivo | main.py:45-47 | The guard is true exactly when the store holds an open record of the user |
| Viajes.AtMostOneOpenIffSelectSmall | main.py:45-47 | Both directions: no two open records share an owner if and only if the guard's query returns at most one row for every user |
| Viajes.AppendKeepsAtMostOneOpen | main.py:105-112 | Appending a record keeps "at most one open record per user" when the new record is closed or its owner had no open record |
| Bot.RoleOfButtons | main.py:61-64 | The driver button text yields the role `Conductor` and the passenger button text yields `Pasajero` |
| Bot.Route | main.py:51-98 | The dispatcher picks the first handler, in registration order (`/start`, role button, location while waiting for it, anything while waiting for the trip data), whose filters accept the message; it picks none exactly when no filter accepts |
| Bot.IniciarFlujo | main.py:61-77 | With an open trip: world unchanged and a refusal worded by role. Otherwise: trips unchanged, the sender's state becomes `EsperandoUbicacion`, `rol` is set, earlier `lat`/`lon` are kept, the location is requested, and other users are untouched |
| Bot.RecibirUbicacion | main.py:80-95 | Stores `lat`/`lon`, keeps `rol`, moves to `EsperandoDatosIA`, and leaves trips and other users unchanged. The prompt is the one for the stored role, or a crash when `rol` is absent |
| Bot.ProcesarDatosIA | main.py:98-120 | With `rol`, `lat` and `lon` present: appends exactly one "activo" record carrying the sender, those values and the message text, keeps every existing record, resets the session to idle with empty data, and touches no other user. With a key missing: nothing changes and the handler crashes |
| Bot.Step | main.py:51-120 | Only the sender's session can change. The store grows by at most one "activo" record of the sender. `/start` and unmatched messages change nothing. A role button in any state is refused while a trip is open and otherwise restarts the flow. A location while waiting for it is stored. Any other message while waiting for the trip data writes the record and clears the session |
| Bot.Run | main.py:105-114 | Over any sequence of updates the trip store keeps its existing records as a prefix and gains at most one record per update |
| Bot.CancelIsIgnored | main.py:41 | Pressing the cancel button while waiting for the location changes nothing and gets no answer, because no handler accepts it |
| Invariantes.StartInv | main.py:22 | Empty session storage over any store with at most one open trip per user satisfies the invariant. This covers the first start and every restart, which loses the in-memory sessions but keeps the trips |
| Invariantes.StepKeepsInv | main.py:61-114 | From a world where every session holds the keys its state reads and no user in mid-flow has an open trip, one update keeps this and never crashes |
| Invariantes.RunKeepsInv | main.py:61-114 | The invariant holds after every finite sequence of updates |
| Invariantes.OneOpenTripPerUser | main.py:45-114 | From empty session storage over any store with at most one open trip per user, after any sequence of updates handled one at a time, each user has at most one open record, and every session holds the keys its state reads (lines 89 and 107-109 never miss) |
| Invariantes.NeverCrashes | main.py:84-112 | From empty session storage over any store with at most one open trip per user, the k-th update of any sequence never hits a missing data key |
| Invariantes.OpenTripIsFinal | main.py:45-114 | Once a user has an open trip, it stays open through any later updates, and no further record is written for that user |
| Invariantes.Serve | main.py:131 | An idealised polling loop (the real one runs updates as concurrent tasks). Handling updates one at a time in arrival order yields the same world as `Run`. Update k gets exactly the reply `Step` gives it in the world the first k updates produce. No reply is a crash, and each user has at most one open trip |

## Left out

- Telegram transport: the bot and dispatcher objects, the reply keyboards, the message wording and Markdown, and the `answer`/`edit_text` calls. Replies are abstract kinds.
- Recognising the `/start` command in a text (prefix, bot mention, arguments) is left to the transport. `Text` bodies are texts that are not that command.
- The FSM storage key is the (chat, user) pair. One private chat per user is assumed, so the key is the user id. A user who runs two flows in two chats passes the guard twice and can end with two open trips. `Invariantes.OneOpenTripPerUser`, `Invariantes.OpenTripIsFinal` and `Invariantes.Serve` hold only under this assumption and one-at-a-time processing.
- The Supabase client is replaced by the in-memory sequence. Network and insert failures are I/O and are not modelled.
- Environment and configuration loading, the liveness web server, and polling start-up. `Invariantes.Serve` stands for the polling loop only.
- async/await and concurrent handling of updates for the same user. The polling loop runs each update as its own task. The data handler reads the session data (main.py:100), awaits its "processing" answer (main.py:101), and only then inserts and clears the state (main.py:105-114). Two messages sent quickly while the bot waits for the trip data can therefore both pass the state filter and both insert an "activo" row. The model processes updates one at a time, so this race is not modelled.
- Floating-point coordinates: they are stored as opaque `real` values with no arithmetic.
- Distance computation, matching, LLM extraction, and finishing or cancelling trips are not part of `main.py` (line 103 is a placeholder comment), so they are not modelled.
- The "how to use" button of the main keyboard has no handler of its own. In `Idle` and `EsperandoUbicacion` no handler accepts it, so it is a no-op under `Bot.Step`. While the bot waits for the trip data, the data handler accepts it like any other text, so it is stored as the trip text.
