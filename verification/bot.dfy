/** The bot's message handlers and the dispatcher that picks one of them for
    each incoming message, folded into a pure step function over the session
    storage and the trip store. */
module Bot {

  import opened Wrappers
  import opened Viajes
  import opened Sesion

  /** The two role buttons of the main keyboard, exactly as the role handler's
      text filter expects them. */
  const ButtonConductor: string := "\U{1F697} Soy un buen conductor"
  const ButtonPasajero: string := "\U{1F6B6} Soy pasajero"

  /** The cancel button of the location keyboard. */
  const ButtonCancelar: string := "\U{274C} Cancelar"

  predicate IsRoleButton(text: string)
  {
    text == ButtonConductor || text == ButtonPasajero
  }

  /** `sub` occurs in `s` as a contiguous piece (the `in` test on strings). */
  predicate Contains(s: string, sub: string)
  {
    exists i | 0 <= i <= |s| :: OccursAt(s, sub, i)
  }

  predicate OccursAt(s: string, sub: string, i: int)
  {
    0 <= i && i + |sub| <= |s| && s[i..i + |sub|] == sub
  }

  /** The role a button stands for: driver exactly when its text mentions
      "conductor". */
  function RoleOf(text: string): Role
  {
    if Contains(text, "conductor") then Conductor else Pasajero
  }

  /** The driver button yields the driver role and the passenger button the
      passenger role. */
  lemma RoleOfButtons()
    ensures RoleOf(ButtonConductor) == Conductor
    ensures RoleOf(ButtonPasajero) == Pasajero
  {
    assert OccursAt(ButtonConductor, "conductor", 14);
    forall i | 0 <= i <= |ButtonPasajero|
      ensures !OccursAt(ButtonPasajero, "conductor", i)
    {
      if i + 9 <= |ButtonPasajero| {
        assert ButtonPasajero[i..i + 9][0] == ButtonPasajero[i] != 'c';
      }
    }
  }

  /** An incoming update. `Start` is the `/start` command, `Other` any message
      that carries neither text nor a location (a photo, a sticker, ...).
      Recognising the command is the transport's job: a text the command
      filter accepts (such as "/start") arrives as `Start`, never as `Text`,
      so a `Text` body is never that command. */
  datatype Event =
    | Start(sender: UserId)
    | Text(sender: UserId, body: string)
    | Location(sender: UserId, lat: Coord, lon: Coord)
    | Other(sender: UserId)

  /** The message's text, absent for locations and other non-text messages. */
  function MessageText(e: Event): Option<string>
  {
    match e
    case Start(_) => Some("/start")
    case Text(_, body) => Some(body)
    case Location(_, _, _) => None
    case Other(_) => None
  }

  /** The four handlers, plus "nothing matched". */
  datatype Handler = StartHandler | RoleHandler | LocationHandler | DataHandler | NoHandler

  /** Handlers in the order they are registered with the dispatcher. */
  const Registration: seq<Handler> := [StartHandler, RoleHandler, LocationHandler, DataHandler]

  /** The filters each handler is registered with, given the sender's state. */
  predicate Accepts(h: Handler, s: State, e: Event)
  {
    match h
    case StartHandler => e.Start?
    case RoleHandler => e.Text? && IsRoleButton(e.body)
    case LocationHandler => s == EsperandoUbicacion && e.Location?
    case DataHandler => s == EsperandoDatosIA
    case NoHandler => false
  }

  /** The dispatcher runs the first registered handler whose filters accept the
      message, and none when no filter does. */
  function Route(s: State, e: Event): (h: Handler)
    ensures h == NoHandler <==>
              forall k :: 0 <= k < |Registration| ==> !Accepts(Registration[k], s, e)
    ensures h != NoHandler ==>
              exists k :: 0 <= k < |Registration| && Registration[k] == h &&
                          Accepts(h, s, e) &&
                          forall j :: 0 <= j < k ==> !Accepts(Registration[j], s, e)
  {
    assert Registration[0] == StartHandler && Registration[1] == RoleHandler;
    assert Registration[2] == LocationHandler && Registration[3] == DataHandler;
    if e.Start? then StartHandler
    else if e.Text? && IsRoleButton(e.body) then RoleHandler
    else if s == EsperandoUbicacion && e.Location? then LocationHandler
    else if s == EsperandoDatosIA then DataHandler
    else NoHandler
  }

  /** What the user sees, abstracted from the wording and keyboards. */
  datatype Reply =
    | Welcome                     // greeting with the main keyboard
    | OpenTripNotice(rol: Role)   // refusal: the user still has an open trip
    | AskLocation                 // request to share the current location
    | AskTripData(rol: Role)      // driver or passenger data prompt
    | Registered                  // "processing" message edited into a success notice
    | Crashed                     // the handler raised on a missing data key
    | Silent                      // no handler matched

  /** The session storage together with the trip store. */
  datatype World = World(sessions: Sessions, trips: seq<Trip>)

  datatype Outcome = Outcome(world: World, reply: Reply)

  const Init: World := World(map[], [])

  /** Role button: refuse while the user has an open trip; otherwise record the
      role (keeping any other data) and ask for the location. */
  function IniciarFlujo(w: World, u: UserId, text: string): (r: Outcome)
    requires IsRoleButton(text)
    ensures r.world.trips == w.trips
    ensures forall v :: v != u ==> Lookup(r.world.sessions, v) == Lookup(w.sessions, v)
    ensures HasOpenTrip(w.trips, u) ==> r.world == w && r.reply == OpenTripNotice(RoleOf(text))
    ensures !HasOpenTrip(w.trips, u) ==>
              var s, s0 := Lookup(r.world.sessions, u), Lookup(w.sessions, u);
              && s.state == EsperandoUbicacion
              && s.data.rol == Some(RoleOf(text))
              && s.data.lat == s0.data.lat
              && s.data.lon == s0.data.lon
              && r.reply == AskLocation
  {
    var rol := RoleOf(text);
    if TieneViajeActivo(w.trips, u) then
      Outcome(w, OpenTripNotice(rol))
    else
      var s := Lookup(w.sessions, u);
      var s' := Session(EsperandoUbicacion, s.data.(rol := Some(rol)));
      Outcome(w.(sessions := w.sessions[u := s']), AskLocation)
  }

  /** Location while waiting for it: store the coordinates and move on to the
      trip data, then prompt by role. The state changes before `rol` is read,
      so a missing role still leaves the new state behind. */
  function RecibirUbicacion(w: World, u: UserId, lat: Coord, lon: Coord): (r: Outcome)
    requires Lookup(w.sessions, u).state == EsperandoUbicacion
    ensures r.world.trips == w.trips
    ensures forall v :: v != u ==> Lookup(r.world.sessions, v) == Lookup(w.sessions, v)
    ensures var s, s0 := Lookup(r.world.sessions, u), Lookup(w.sessions, u);
            && s.state == EsperandoDatosIA
            && s.data.rol == s0.data.rol
            && s.data.lat == Some(lat)
            && s.data.lon == Some(lon)
    ensures match Lookup(w.sessions, u).data.rol
            case Some(rol) => r.reply == AskTripData(rol)
            case None => r.reply == Crashed
  {
    var s := Lookup(w.sessions, u);
    var s' := Session(EsperandoDatosIA, s.data.(lat := Some(lat), lon := Some(lon)));
    var w' := w.(sessions := w.sessions[u := s']);
    match s.data.rol
    case Some(rol) => Outcome(w', AskTripData(rol))
    case None => Outcome(w', Crashed)
  }

  /** Any message while waiting for the trip data: write one open record with
      the collected role and coordinates and the message text, then clear the
      session. A missing key raises before anything is written. */
  function ProcesarDatosIA(w: World, u: UserId, text: Option<string>): (r: Outcome)
    requires Lookup(w.sessions, u).state == EsperandoDatosIA
    ensures forall v :: v != u ==> Lookup(r.world.sessions, v) == Lookup(w.sessions, v)
    ensures var d := Lookup(w.sessions, u).data;
            d.rol.Some? && d.lat.Some? && d.lon.Some? ==>
              && r.world.trips == w.trips + [Trip(u, d.rol.value, d.lat.value, d.lon.value, text, Activo)]
              && Lookup(r.world.sessions, u) == Fresh
              && r.reply == Registered
    ensures var d := Lookup(w.sessions, u).data;
            !(d.rol.Some? && d.lat.Some? && d.lon.Some?) ==> r.world == w && r.reply == Crashed
  {
    var d := Lookup(w.sessions, u).data;
    if d.rol.None? || d.lat.None? || d.lon.None? then
      Outcome(w, Crashed)
    else
      var t := Trip(u, d.rol.value, d.lat.value, d.lon.value, text, Activo);
      Outcome(World(w.sessions[u := Fresh], w.trips + [t]), Registered)
  }

  /** `after` is `before`, or `before` with one open record of `u` appended. */
  predicate AppendedBy(before: seq<Trip>, after: seq<Trip>, u: UserId)
  {
    || after == before
    || (&& |after| == |before| + 1
        && after[..|before|] == before
        && after[|before|].usuarioId == u
        && after[|before|].estado == Activo)
  }

  /** One update, handled by the handler the dispatcher picks. */
  function Step(w: World, e: Event): (r: Outcome)
    ensures forall v :: v != e.sender ==> Lookup(r.world.sessions, v) == Lookup(w.sessions, v)
    ensures AppendedBy(w.trips, r.world.trips, e.sender)
    ensures e.Start? ==> r.world == w && r.reply == Welcome
    ensures Route(Lookup(w.sessions, e.sender).state, e) == NoHandler ==>
              r.world == w && r.reply == Silent
    // a role button is handled in every state: refused while a trip is open,
    // otherwise it (re)starts the flow
    ensures e.Text? && IsRoleButton(e.body) && HasOpenTrip(w.trips, e.sender) ==>
              r.world == w
    ensures e.Text? && IsRoleButton(e.body) && !HasOpenTrip(w.trips, e.sender) ==>
              && r.world.trips == w.trips
              && Lookup(r.world.sessions, e.sender).state == EsperandoUbicacion
              && Lookup(r.world.sessions, e.sender).data.rol == Some(RoleOf(e.body))
    // a location while waiting for it is stored
    ensures e.Location? && Lookup(w.sessions, e.sender).state == EsperandoUbicacion ==>
              && r.world.trips == w.trips
              && Lookup(r.world.sessions, e.sender).state == EsperandoDatosIA
              && Lookup(r.world.sessions, e.sender).data.lat == Some(e.lat)
              && Lookup(r.world.sessions, e.sender).data.lon == Some(e.lon)
    // any other message while waiting for the trip data completes the flow
    ensures var d := Lookup(w.sessions, e.sender).data;
            && Lookup(w.sessions, e.sender).state == EsperandoDatosIA
            && !e.Start? && !(e.Text? && IsRoleButton(e.body))
            && d.rol.Some? && d.lat.Some? && d.lon.Some? ==>
              && r.world.trips == w.trips + [Trip(e.sender, d.rol.value, d.lat.value, d.lon.value, MessageText(e), Activo)]
              && Lookup(r.world.sessions, e.sender) == Fresh
  {
    var u := e.sender;
    match Route(Lookup(w.sessions, u).state, e)
    case StartHandler => Outcome(w, Welcome)
    case RoleHandler => IniciarFlujo(w, u, e.body)
    case LocationHandler => RecibirUbicacion(w, u, e.lat, e.lon)
    case DataHandler => ProcesarDatosIA(w, u, MessageText(e))
    case NoHandler => Outcome(w, Silent)
  }

  /** The updates handled one after another, oldest first. The trip store only
      ever grows at its end, by at most one record per update. */
  function Run(w: World, events: seq<Event>): (r: World)
    ensures |w.trips| <= |r.trips| <= |w.trips| + |events|
    ensures r.trips[..|w.trips|] == w.trips
    decreases |events|
  {
    if |events| == 0 then w
    else
      var prev := Run(w, events[..|events| - 1]);
      Step(prev, events[|events| - 1]).world
  }

  /** The cancel button offered while waiting for the location has no handler:
      pressing it changes nothing and gets no answer. */
  lemma CancelIsIgnored(w: World, u: UserId)
    requires Lookup(w.sessions, u).state == EsperandoUbicacion
    ensures Step(w, Text(u, ButtonCancelar)) == Outcome(w, Silent)
  {
  }

}
