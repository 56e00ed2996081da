/**
 * The three form schemas of the UltraStat setup wizard (MAIN_SCHEMA,
 * BOILER_SCHEMA and ROOM_SCHEMA) and the empty adjacency schema, as the
 * values a validated submission can carry.
 *
 * A key the schema marks Required is a plain field; an Optional key is an
 * Option. The selector constraints that the host's validation enforces
 * before a step handler ever sees the submission are the predicates
 * ValidMainForm and ValidBoilerForm; the temperature unit, being one of
 * two values, is a datatype.
 */
module Schema {
  import opened Wrappers

  /** A reference to a host entity or area; resolution is the host's job. */
  type EntityRef = string

  /** The least room count the room-count selector accepts. */
  const MinRooms: nat := 1

  /** The boiler rating selector's range, in BTU/h. */
  const MinBoilerBtuh: int := 0
  const MaxBoilerBtuh: int := 500000

  datatype TemperatureUnit = Fahrenheit | Celsius

  /** The collapsible "outdoor_sensors" section: four optional sensors. */
  datatype OutdoorSensors = OutdoorSensors(
    tempEntity: Option<EntityRef>,
    windSpeedEntity: Option<EntityRef>,
    windDirectionEntity: Option<EntityRef>,
    solarFluxEntity: Option<EntityRef>)

  /** A submission of the global ("user") form. */
  datatype MainForm = MainForm(
    name: string,
    numRooms: nat,
    temperatureUnit: TemperatureUnit,
    outdoorSensors: OutdoorSensors,
    hasBoiler: bool)

  /** The room count is an integer of at least one. */
  predicate ValidMainForm(m: MainForm) {
    m.numRooms >= MinRooms
  }

  /** A submission of the boiler form: every key is optional. */
  datatype BoilerForm = BoilerForm(
    boilerBtuh: Option<int>,
    boilerInletTemp: Option<EntityRef>,
    boilerOutletTemp: Option<EntityRef>)

  /** A rating, when given, lies in the selector's range. */
  predicate ValidBoilerForm(b: BoilerForm) {
    b.boilerBtuh.Some? ==> MinBoilerBtuh <= b.boilerBtuh.value <= MaxBoilerBtuh
  }

  /** A submission of one room form: area and temperature sensor are required. */
  datatype RoomForm = RoomForm(
    area: EntityRef,
    tempEntity: EntityRef,
    heatCallEntity: Option<EntityRef>,
    climateEntity: Option<EntityRef>)

  /** A submission of the adjacency form, whose schema has no keys. */
  datatype AdjacencyForm = AdjacencyForm
}
