/** Per-user conversation state kept by the dispatcher's in-memory FSM storage:
    the current state of the `MoteMovilStates` group and the data dictionary the
    handlers fill in. */
module Sesion {

  import opened Wrappers
  import opened Viajes

  /** `Idle` is the storage's "no state"; the two others are the states of the
      `MoteMovilStates` group. */
  datatype State = Idle | EsperandoUbicacion | EsperandoDatosIA

  /** The data dictionary; a field is `None` while its key is absent. */
  datatype Data = Data(rol: Option<Role>, lat: Option<Coord>, lon: Option<Coord>)

  const EmptyData: Data := Data(None, None, None)

  datatype Session = Session(state: State, data: Data)

  /** What the storage holds for a user it has never seen, and after a clear. */
  const Fresh: Session := Session(Idle, EmptyData)

  type Sessions = map<UserId, Session>

  function Lookup(sessions: Sessions, u: UserId): Session
  {
    if u in sessions then sessions[u] else Fresh
  }

  /** A user is in the middle of a flow: a role was accepted and no record has
      been written for it yet. */
  predicate Collecting(s: State)
  {
    s == EsperandoUbicacion || s == EsperandoDatosIA
  }

  /** The keys each state's handler reads are present: `rol` while waiting for
      the location, `rol`, `lat` and `lon` while waiting for the trip data, and
      nothing at all when idle. */
  predicate KeysPresent(s: Session)
  {
    match s.state
    case Idle => s.data == EmptyData
    case EsperandoUbicacion => s.data.rol.Some?
    case EsperandoDatosIA => s.data.rol.Some? && s.data.lat.Some? && s.data.lon.Some?
  }

}
