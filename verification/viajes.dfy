/** The `viajes` table: trip records and the "open trip" guard consulted before
    a user may start a new flow. The remote store is modelled as an in-memory,
    append-only sequence of records. */
module Viajes {

  import opened Wrappers

  /** Telegram user id. */
  type UserId = int

  /** Latitude or longitude as delivered by Telegram. Coordinates are only
      stored, never computed with. */
  type Coord = real

  /** The two roles offered by the main keyboard; stored as "conductor" and
      "pasajero". */
  datatype Role = Conductor | Pasajero

  function RoleName(r: Role): string
  {
    match r
    case Conductor => "conductor"
    case Pasajero => "pasajero"
  }

  /** The `estado` values that count as an open trip. */
  const Activo: string := "activo"
  const EnProgreso: string := "en_progreso"

  /** One row of the `viajes` table. */
  datatype Trip = Trip(
    usuarioId: UserId,
    rol: Role,
    latitud: Coord,
    longitud: Coord,
    rutaRaw: Option<string>,
    estado: string)

  predicate IsOpen(t: Trip)
  {
    t.estado == Activo || t.estado == EnProgreso
  }

  /** Reference meaning of "user u has an open trip": some record in the store. */
  predicate HasOpenTrip(trips: seq<Trip>, u: UserId)
  {
    exists i :: 0 <= i < |trips| && trips[i].usuarioId == u && IsOpen(trips[i])
  }

  /** The query of the guard: the records whose `usuario_id` is u and whose
      `estado` is one of the open values. */
  function SelectOpen(trips: seq<Trip>, u: UserId): (res: seq<Trip>)
    ensures |res| <= |trips|
    ensures forall k :: 0 <= k < |res| ==> res[k].usuarioId == u && IsOpen(res[k])
    ensures forall t :: t in trips && t.usuarioId == u && IsOpen(t) ==> t in res
    ensures forall t :: t in res ==> t in trips
  {
    if |trips| == 0 then []
    else
      var rest := SelectOpen(trips[1..], u);
      if trips[0].usuarioId == u && IsOpen(trips[0]) then [trips[0]] + rest else rest
  }

  /** The guard: the query returned at least one row. */
  function TieneViajeActivo(trips: seq<Trip>, u: UserId): (b: bool)
    ensures b <==> HasOpenTrip(trips, u)
  {
    if |SelectOpen(trips, u)| > 0 then
      assert SelectOpen(trips, u)[0] in trips;
      true
    else
      assert forall i :: 0 <= i < |trips| ==> trips[i] in trips;
      false
  }

  /** The store's central invariant: no two open records belong to the same user. */
  predicate AtMostOneOpen(trips: seq<Trip>)
  {
    forall i, j ::
      0 <= i < j < |trips| && IsOpen(trips[i]) && IsOpen(trips[j]) ==>
        trips[i].usuarioId != trips[j].usuarioId
  }

  /** The pairwise invariant says exactly that the guard's query never returns
      more than one row, for any user. */
  lemma {:induction false} AtMostOneOpenIffSelectSmall(trips: seq<Trip>)
    ensures AtMostOneOpen(trips) <==> forall u :: |SelectOpen(trips, u)| <= 1
  {
    if AtMostOneOpen(trips) {
      forall u
        ensures |SelectOpen(trips, u)| <= 1
      {
        AtMostOneOpenSelectSmall(trips, u);
      }
    }
    if !AtMostOneOpen(trips) {
      var i, j :| 0 <= i < j < |trips| && IsOpen(trips[i]) && IsOpen(trips[j]) &&
                  trips[i].usuarioId == trips[j].usuarioId;
      TwoOpenSelectedTwice(trips, trips[i].usuarioId, i, j);
    }
  }

  lemma {:induction false} AtMostOneOpenSelectSmall(trips: seq<Trip>, u: UserId)
    requires AtMostOneOpen(trips)
    ensures |SelectOpen(trips, u)| <= 1
  {
    if |trips| > 0 {
      var tail := trips[1..];
      assert AtMostOneOpen(tail) by {
        forall i, j | 0 <= i < j < |tail| && IsOpen(tail[i]) && IsOpen(tail[j])
          ensures tail[i].usuarioId != tail[j].usuarioId
        {
          assert tail[i] == trips[i + 1] && tail[j] == trips[j + 1];
        }
      }
      AtMostOneOpenSelectSmall(tail, u);
      if trips[0].usuarioId == u && IsOpen(trips[0]) {
        forall j | 0 <= j < |tail|
          ensures !(tail[j].usuarioId == u && IsOpen(tail[j]))
        {
          assert tail[j] == trips[j + 1];
        }
        assert !TieneViajeActivo(tail, u);
      }
    }
  }

  lemma {:induction false} TwoOpenSelectedTwice(trips: seq<Trip>, u: UserId, i: nat, j: nat)
    requires i < j < |trips|
    requires trips[i].usuarioId == u && IsOpen(trips[i])
    requires trips[j].usuarioId == u && IsOpen(trips[j])
    ensures |SelectOpen(trips, u)| >= 2
  {
    var tail := trips[1..];
    if i == 0 {
      assert tail[j - 1] in tail;
      assert |SelectOpen(tail, u)| >= 1;
    } else {
      assert tail[i - 1] == trips[i] && tail[j - 1] == trips[j];
      TwoOpenSelectedTwice(tail, u, i - 1, j - 1);
    }
  }

  /** Appending a record keeps the invariant when it is closed or when its
      owner had no open record yet. */
  lemma AppendKeepsAtMostOneOpen(trips: seq<Trip>, t: Trip)
    requires AtMostOneOpen(trips)
    requires IsOpen(t) ==> !HasOpenTrip(trips, t.usuarioId)
    ensures AtMostOneOpen(trips + [t])
  {
  }

}
