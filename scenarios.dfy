/**
 * Two wizard sessions driven through the ConfigFlowHandler class, the way
 * the host drives it: open the user form, then deliver each submission to
 * the step whose form is on screen.
 */
module Scenarios {
  import opened Wrappers
  import opened Schema
  import opened ConfigFlow

  const NoOutdoorSensors := OutdoorSensors(None, None, None, None)

  /** Two rooms, no boiler: user form, two room forms, entry without boiler_conf. */
  method TwoRoomsWithoutBoiler(first: RoomForm, second: RoomForm) returns (r: FlowResult)
    ensures r.CreateEntry? && r.title == "Main House"
    ensures r.data.roomConf == [first, second]
    ensures r.data.boilerConf.None? && !r.data.hasBoiler && !r.data.useAdjacency
  {
    var flow := new ConfigFlowHandler();
    r := flow.StepUser(None);
    assert r == ShowForm(User);
    r := flow.StepUser(Some(MainForm("Main House", 2, Fahrenheit, NoOutdoorSensors, false)));
    assert r == ShowForm(Room);
    r := flow.StepRoom(Some(first));
    assert r == ShowForm(Room);
    r := flow.StepRoom(Some(second));
  }

  /** One room with a boiler: user form, boiler form, room form, entry with boiler_conf. */
  method OneRoomWithBoiler(boiler: BoilerForm, room: RoomForm) returns (r: FlowResult)
    requires ValidBoilerForm(boiler)
    ensures r.CreateEntry? && r.title == "Cabin"
    ensures r.data.boilerConf == Some(boiler) && r.data.roomConf == [room]
    ensures r.data.temperatureUnit == Celsius && !r.data.useAdjacency
  {
    var flow := new ConfigFlowHandler();
    r := flow.StepUser(Some(MainForm("Cabin", 1, Celsius, NoOutdoorSensors, true)));
    assert r == ShowForm(Boiler);
    r := flow.StepBoiler(Some(boiler));
    assert r == ShowForm(Room);
    r := flow.StepRoom(Some(room));
  }
}
