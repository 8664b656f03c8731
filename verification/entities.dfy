/**
 The records the API returns, as far as the pages read them. A field the API may leave out is a
 string whose absence reads as "" (every page reads such fields through `|| ""` or a truthiness
 test, which treat the two alike); identifiers are carried as the text they interpolate to.
 */
module Entities {
  import opened Js

  datatype Location = Location(
    id: string,
    name: string,
    address: string,
    maxPeople: int,
    currentPeople: int,
    description: string,
    mapsUrl: string)

  datatype Gate = Gate(id: string, tag: string, status: string, locationId: Option<string>)

  /** A movement record of a gate's history. */
  datatype LogEntry = LogEntry(id: string, operation: string, createdAt: string)

  /** The badge a gate's status is shown with, in both the gate list and the gate details. */
  function StatusLabel(status: string): (badge: string)
    ensures badge == "Ativado" <==> status == "ativado"
    ensures badge == "Ativado" || badge == "Desativado"
  {
    if status == "ativado" then "Ativado" else "Desativado"
  }
}
