/**
 * The setup wizard ConfigFlowHandler: four step handlers that accumulate a
 * draft configuration and either show the next form or create the entry.
 *
 * Each handler is a method of the class ConfigFlowHandler, which holds the
 * draft (`data`) and the host's record of the step whose form is on
 * screen (`step`; Done once the entry has been created). Each method is
 * proved against a pure transition function on a Flow value; the contracts
 * of those functions state what one call does.
 */
module ConfigFlow {
  import opened Wrappers
  import opened Schema

  /** The step identifiers, plus Done for a flow whose entry exists. */
  datatype Step = User | Boiler | Room | Adjacency | Done

  /** The accumulated configuration (`self.data`). */
  datatype Draft = Draft(
    name: string,
    numRooms: nat,
    temperatureUnit: TemperatureUnit,
    outdoorSensors: OutdoorSensors,
    hasBoiler: bool,
    useAdjacency: bool,
    boilerConf: Option<BoilerForm>,
    roomConf: seq<RoomForm>,
    adjacency: Option<AdjacencyForm>)

  /** What a step hands back to the host: a form to show, or the entry. */
  datatype FlowResult = ShowForm(stepId: Step) | CreateEntry(title: string, data: Draft)

  /** The state of one flow: the step on screen and the draft. */
  datatype Flow = Flow(step: Step, data: Draft)

  /** A flow state after a call, with what the call returned. */
  datatype Outcome = Outcome(flow: Flow, result: FlowResult)

  /**
   * The draft a flow starts from. The handler has no draft before the user
   * form is submitted; no step reads this one before that submission.
   */
  const EmptyDraft: Draft :=
    Draft("", 0, Fahrenheit, OutdoorSensors(None, None, None, None), false, false, None, [], None)

  const Initial: Flow := Flow(User, EmptyDraft)

  /** The draft carries the global form's fields as submitted. */
  predicate HoldsMainForm(d: Draft, m: MainForm) {
    && d.name == m.name
    && d.numRooms == m.numRooms
    && d.temperatureUnit == m.temperatureUnit
    && d.outdoorSensors == m.outdoorSensors
    && d.hasBoiler == m.hasBoiler
  }

  /**
   * What the draft looks like while the form of step s is on screen in a
   * flow driven by the host: the wizard's invariant per step.
   */
  predicate Accepts(s: Step, d: Draft) {
    match s
    case User => true
    case Boiler =>
      && d.numRooms >= MinRooms && d.hasBoiler
      && d.boilerConf.None? && d.roomConf == [] && d.adjacency.None?
    case Room =>
      && d.numRooms >= MinRooms && |d.roomConf| < d.numRooms
      && BoilerConsistent(d) && d.adjacency.None?
    case Adjacency =>
      && d.numRooms >= MinRooms && |d.roomConf| == d.numRooms
      && BoilerConsistent(d) && d.useAdjacency && d.adjacency.None?
    case Done =>
      && d.numRooms >= MinRooms && |d.roomConf| == d.numRooms
      && BoilerConsistent(d) && (d.adjacency.Some? ==> d.useAdjacency)
  }

  /** The boiler configuration is present exactly when the flag is set, and valid. */
  predicate BoilerConsistent(d: Draft) {
    && (d.boilerConf.Some? <==> d.hasBoiler)
    && (d.boilerConf.Some? ==> ValidBoilerForm(d.boilerConf.value))
  }

  /** `async_show_form`: the form of step s goes on screen, the draft is kept. */
  function ShowStep(f: Flow, s: Step): Outcome {
    Outcome(Flow(s, f.data), ShowForm(s))
  }

  /** `async_step_user`. */
  function UserTransition(f: Flow, input: Option<MainForm>): (o: Outcome)
    requires input.Some? ==> ValidMainForm(input.value)
    ensures input.None? ==> o.result == ShowForm(User) && o.flow == Flow(User, f.data)
    ensures input.Some? ==>
      && HoldsMainForm(o.flow.data, input.value)
      && o.flow.data.roomConf == []
      && !o.flow.data.useAdjacency
      && o.flow.data.boilerConf.None?
      && o.flow.data.adjacency.None?
    ensures input.Some? ==>
      && o.result == ShowForm(if input.value.hasBoiler then Boiler else Room)
      && o.flow.step == o.result.stepId
    ensures input.Some? ==> Accepts(o.flow.step, o.flow.data)
  {
    match input
    case None => ShowStep(f, User)
    case Some(m) =>
      // The submitted form replaces the draft; it has no boiler or adjacency key.
      var submitted := f.data.(name := m.name, numRooms := m.numRooms, temperatureUnit := m.temperatureUnit,
                               outdoorSensors := m.outdoorSensors, hasBoiler := m.hasBoiler,
                               boilerConf := None, adjacency := None);
      var d := submitted.(roomConf := [], useAdjacency := false);
      if d.hasBoiler then BoilerTransition(Flow(f.step, d), None)
      else RoomTransition(Flow(f.step, d), None)
  }

  /** `async_step_boiler`. */
  function BoilerTransition(f: Flow, input: Option<BoilerForm>): (o: Outcome)
    requires input.Some? ==> ValidBoilerForm(input.value)
    ensures input.None? ==> o.result == ShowForm(Boiler) && o.flow == Flow(Boiler, f.data)
    ensures input.Some? ==>
      && o.flow.data.boilerConf == input
      && o.flow.data == f.data.(boilerConf := o.flow.data.boilerConf)
    ensures input.Some? ==> o.result == ShowForm(Room) && o.flow.step == Room
    ensures input.Some? && Accepts(Boiler, f.data) ==> Accepts(o.flow.step, o.flow.data)
  {
    match input
    case None => ShowStep(f, Boiler)
    case Some(b) =>
      var d := f.data.(boilerConf := Some(b));
      RoomTransition(Flow(f.step, d), None)
  }

  /** `async_step_adjacency`. The adjacency schema is empty whatever the room count. */
  function AdjacencyTransition(f: Flow, input: Option<AdjacencyForm>): (o: Outcome)
    ensures input.None? ==> o.result == ShowForm(Adjacency) && o.flow == Flow(Adjacency, f.data)
    ensures input.Some? ==>
      && o.flow.data.adjacency == input
      && o.flow.data == f.data.(adjacency := o.flow.data.adjacency)
    ensures input.Some? ==>
      && o.result.CreateEntry?
      && o.result.title == f.data.name
      && o.result.data == o.flow.data
      && o.flow.step == Done
    ensures input.Some? && Accepts(Adjacency, f.data) ==> Accepts(o.flow.step, o.flow.data)
  {
    match input
    case None => ShowStep(f, Adjacency)
    case Some(a) =>
      var d := f.data.(adjacency := Some(a));
      Outcome(Flow(Done, d), CreateEntry(d.name, d))
  }

  /** `async_step_room`. */
  function RoomTransition(f: Flow, input: Option<RoomForm>): (o: Outcome)
    decreases if input.Some? then 1 else 0
    ensures input.None? ==> o.result == ShowForm(Room) && o.flow == Flow(Room, f.data)
    ensures input.Some? ==>
      && o.flow.data.roomConf == f.data.roomConf + [input.value]
      && o.flow.data == f.data.(roomConf := o.flow.data.roomConf)
    ensures input.Some? ==>
      (o.result.CreateEntry? <==> |f.data.roomConf| + 1 == f.data.numRooms && !f.data.useAdjacency)
    ensures input.Some? && o.result.CreateEntry? ==>
      o.result.title == f.data.name && o.result.data == o.flow.data && o.flow.step == Done
    ensures input.Some? && |f.data.roomConf| + 1 != f.data.numRooms ==>
      o.result == ShowForm(Room) && o.flow.step == Room
    ensures input.Some? && |f.data.roomConf| + 1 == f.data.numRooms && f.data.useAdjacency ==>
      o.result == ShowForm(Adjacency) && o.flow.step == Adjacency
    ensures input.Some? && Accepts(Room, f.data) ==> Accepts(o.flow.step, o.flow.data)
  {
    match input
    case None => ShowStep(f, Room)
    case Some(r) =>
      var d := f.data.(roomConf := f.data.roomConf + [r]);
      if |d.roomConf| == d.numRooms then
        if d.useAdjacency then AdjacencyTransition(Flow(f.step, d), None)
        else Outcome(Flow(Done, d), CreateEntry(d.name, d))
      else RoomTransition(Flow(f.step, d), None)
  }

  /**
   * The flow handler. `data` is the draft the steps update in place; `step`
   * is the step whose form the host last showed, to which it delivers the
   * next submission.
   */
  class ConfigFlowHandler {
    var step: Step
    var data: Draft

    ghost function State(): Flow
      reads this
    {
      Flow(step, data)
    }

    /** The draft agrees with the step on screen. */
    ghost predicate Valid()
      reads this
    {
      Accepts(step, data)
    }

    constructor ()
      ensures State() == Initial && Valid()
    {
      step := User;
      data := EmptyDraft;
    }

    /** Shows the form of step s. */
    method ShowFormOf(s: Step) returns (r: FlowResult)
      modifies this
      ensures Outcome(State(), r) == ShowStep(old(State()), s)
    {
      step := s;
      r := ShowForm(s);
    }

    method StepUser(input: Option<MainForm>) returns (r: FlowResult)
      requires input.Some? ==> step == User && ValidMainForm(input.value)
      modifies this
      ensures Outcome(State(), r) == UserTransition(old(State()), input)
      ensures input.Some? ==> Valid()
    {
      if input.Some? {
        var m := input.value;
        data := data.(name := m.name, numRooms := m.numRooms, temperatureUnit := m.temperatureUnit,
                      outdoorSensors := m.outdoorSensors, hasBoiler := m.hasBoiler,
                      boilerConf := None, adjacency := None);
        data := data.(roomConf := []);
        data := data.(useAdjacency := false);
        if data.hasBoiler {
          r := StepBoiler(None);
          return;
        }
        r := StepRoom(None);
        return;
      }
      r := ShowFormOf(User);
    }

    method StepBoiler(input: Option<BoilerForm>) returns (r: FlowResult)
      requires input.Some? ==> step == Boiler && Valid() && ValidBoilerForm(input.value)
      modifies this
      ensures Outcome(State(), r) == BoilerTransition(old(State()), input)
      ensures input.Some? ==> Valid()
    {
      if input.Some? {
        data := data.(boilerConf := input);
        r := StepRoom(None);
        return;
      }
      r := ShowFormOf(Boiler);
    }

    method StepAdjacency(input: Option<AdjacencyForm>) returns (r: FlowResult)
      requires input.Some? ==> step == Adjacency && Valid()
      modifies this
      ensures Outcome(State(), r) == AdjacencyTransition(old(State()), input)
      ensures input.Some? ==> Valid()
    {
      if input.Some? {
        data := data.(adjacency := input);
        step := Done;
        r := CreateEntry(data.name, data);
        return;
      }
      r := ShowFormOf(Adjacency);
    }

    method StepRoom(input: Option<RoomForm>) returns (r: FlowResult)
      requires input.Some? ==> step == Room && Valid()
      modifies this
      decreases if input.Some? then 1 else 0
      ensures Outcome(State(), r) == RoomTransition(old(State()), input)
      ensures input.Some? ==> Valid()
    {
      if input.Some? {
        data := data.(roomConf := data.roomConf + [input.value]);
        if |data.roomConf| == data.numRooms {
          if data.useAdjacency {
            r := StepAdjacency(None);
            return;
          }
          step := Done;
          r := CreateEntry(data.name, data);
          return;
        }
        r := StepRoom(None);
        return;
      }
      r := ShowFormOf(Room);
    }
  }
}
