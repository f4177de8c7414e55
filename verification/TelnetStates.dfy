// The states that an option and a com-port setting go through.

module TelnetStates {

  datatype RequestState = REQUESTED | ACTIVE | INACTIVE | REALLY_INACTIVE
}
