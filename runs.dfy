/**
 * Host-driven runs of the setup wizard. The host delivers each submission
 * to the handler of the step whose form is on screen, and only after the
 * step's schema has accepted it; a run is the fold of the steps'
 * transitions over the accepted submissions, starting from the user form.
 *
 * The lemmas here state what a completed run looks like: exactly one global
 * form, a boiler form exactly when the boiler flag is set, then exactly as
 * many room forms as the global form declared, and an entry titled with
 * the declared name whose data is the whole draft.
 */
module Runs {
  import opened Wrappers
  import opened Schema
  import opened ConfigFlow

  /** One accepted form submission. */
  datatype Submission =
    | MainSub(main: MainForm)
    | BoilerSub(boiler: BoilerForm)
    | RoomSub(room: RoomForm)
    | AdjacencySub(adjacency: AdjacencyForm)

  /** The submission is for the form of step s and passes that form's schema. */
  predicate Fits(s: Step, sub: Submission) {
    match sub
    case MainSub(m) => s == User && ValidMainForm(m)
    case BoilerSub(b) => s == Boiler && ValidBoilerForm(b)
    case RoomSub(_) => s == Room
    case AdjacencySub(_) => s == Adjacency
  }

  /** The handler call the host makes for a submission. */
  function Handle(f: Flow, sub: Submission): Outcome
    requires Fits(f.step, sub)
  {
    match sub
    case MainSub(m) => UserTransition(f, Some(m))
    case BoilerSub(b) => BoilerTransition(f, Some(b))
    case RoomSub(r) => RoomTransition(f, Some(r))
    case AdjacencySub(a) => AdjacencyTransition(f, Some(a))
  }

  /** The flow as the host opens it: the user step called without input. */
  function Start(): Outcome {
    UserTransition(Initial, None)
  }

  /** Delivers the submissions in order; None if one of them does not fit. */
  function Run(o: Outcome, subs: seq<Submission>): Option<Outcome>
    decreases |subs|
  {
    if subs == [] then Some(o)
    else if Fits(o.flow.step, subs[0]) then Run(Handle(o.flow, subs[0]), subs[1..])
    else None
  }

  function RoomSubs(rooms: seq<RoomForm>): seq<Submission> {
    if rooms == [] then [] else [RoomSub(rooms[0])] + RoomSubs(rooms[1..])
  }

  /** The room forms among the submissions, in order. */
  function RoomsOf(subs: seq<Submission>): seq<RoomForm> {
    if subs == [] then []
    else (if subs[0].RoomSub? then [subs[0].room] else []) + RoomsOf(subs[1..])
  }

  /** The first boiler form among the submissions, if any. */
  function BoilerOf(subs: seq<Submission>): Option<BoilerForm> {
    if subs == [] then None
    else if subs[0].BoilerSub? then Some(subs[0].boiler)
    else BoilerOf(subs[1..])
  }

  /** The submissions of a wizard run: global form, optional boiler form, rooms. */
  function Script(m: MainForm, b: Option<BoilerForm>, rooms: seq<RoomForm>): seq<Submission> {
    [MainSub(m)] + ScriptAfterMain(b, rooms)
  }

  function ScriptAfterMain(b: Option<BoilerForm>, rooms: seq<RoomForm>): seq<Submission> {
    match b
    case None => RoomSubs(rooms)
    case Some(boiler) => [BoilerSub(boiler)] + RoomSubs(rooms)
  }

  /** The entry data such a run is meant to produce. */
  function Entry(m: MainForm, b: Option<BoilerForm>, rooms: seq<RoomForm>): Draft {
    Draft(m.name, m.numRooms, m.temperatureUnit, m.outdoorSensors, m.hasBoiler, false, b, rooms, None)
  }

  /** A finished flow with its entry: title the draft's name, data the whole draft. */
  function Final(d: Draft): Outcome {
    Outcome(Flow(Done, d), CreateEntry(d.name, d))
  }

  /** The inputs of a run that the wizard turns into an entry. */
  predicate CompletingInputs(m: MainForm, b: Option<BoilerForm>, rooms: seq<RoomForm>) {
    && ValidMainForm(m)
    && (b.Some? <==> m.hasBoiler)
    && (b.Some? ==> ValidBoilerForm(b.value))
    && |rooms| == m.numRooms
  }

  /**
   * What holds of every outcome a run reaches: the draft agrees with the
   * step on screen, the adjacency flag stays forced off once the global form
   * is in, and the result is the form of the current step or, once Done,
   * the entry.
   */
  ghost predicate Consistent(o: Outcome) {
    && Accepts(o.flow.step, o.flow.data)
    && (o.flow.step != User ==> !o.flow.data.useAdjacency)
    && (if o.flow.step == Done then o.result == CreateEntry(o.flow.data.name, o.flow.data)
        else o.result == ShowForm(o.flow.step))
  }

  lemma HandleKeepsConsistent(o: Outcome, sub: Submission)
    requires Consistent(o) && Fits(o.flow.step, sub)
    ensures Consistent(Handle(o.flow, sub))
  {
  }

  lemma {:induction false} RunKeepsConsistent(o: Outcome, subs: seq<Submission>)
    requires Consistent(o) && Run(o, subs).Some?
    ensures Consistent(Run(o, subs).value)
    decreases |subs|
  {
    if subs != [] {
      HandleKeepsConsistent(o, subs[0]);
      RunKeepsConsistent(Handle(o.flow, subs[0]), subs[1..]);
    }
  }

  /**
   * Every outcome a run reaches is consistent; in particular the adjacency
   * step is never reached, since the flag that routes to it is forced off.
   */
  lemma ReachableIsConsistent(subs: seq<Submission>)
    requires Run(Start(), subs).Some?
    ensures Consistent(Run(Start(), subs).value)
    ensures Run(Start(), subs).value.flow.step != Adjacency
    ensures Run(Start(), subs).value.flow.step != User ==> !Run(Start(), subs).value.flow.data.useAdjacency
  {
    RunKeepsConsistent(Start(), subs);
  }

  /** Delivering one submission after another is delivering their concatenation. */
  lemma {:induction false} RunAppend(o: Outcome, subs: seq<Submission>, more: seq<Submission>)
    requires Run(o, subs).Some?
    ensures Run(o, subs + more) == Run(Run(o, subs).value, more)
    decreases |subs|
  {
    if subs == [] {
      assert subs + more == more;
    } else {
      assert (subs + more)[0] == subs[0];
      assert (subs + more)[1..] == subs[1..] + more;
      RunAppend(Handle(o.flow, subs[0]), subs[1..], more);
    }
  }

  /** Once the entry exists, no further submission is accepted. */
  lemma NothingAfterEntry(subs: seq<Submission>, sub: Submission)
    requires Run(Start(), subs).Some? && Run(Start(), subs).value.result.CreateEntry?
    ensures Run(Start(), subs + [sub]).None?
  {
    ReachableIsConsistent(subs);
    RunAppend(Start(), subs, [sub]);
  }

  /** A run that accepts a whole sequence accepts each prefix of it. */
  lemma {:induction false} RunPrefix(o: Outcome, subs: seq<Submission>, more: seq<Submission>)
    requires Run(o, subs + more).Some?
    ensures Run(o, subs).Some?
    decreases |subs|
  {
    if subs != [] {
      assert (subs + more)[0] == subs[0];
      assert (subs + more)[1..] == subs[1..] + more;
      RunPrefix(Handle(o.flow, subs[0]), subs[1..], more);
    }
  }

  /** The room forms of a concatenation are those of its parts, in order. */
  lemma {:induction false} RoomsOfAppend(subs: seq<Submission>, more: seq<Submission>)
    ensures RoomsOf(subs + more) == RoomsOf(subs) + RoomsOf(more)
    decreases |subs|
  {
    if subs == [] {
      assert subs + more == more;
    } else {
      assert (subs + more)[0] == subs[0];
      assert (subs + more)[1..] == subs[1..] + more;
      RoomsOfAppend(subs[1..], more);
    }
  }

  /**
   * Along any run, whether or not it has reached the entry, the first
   * submission is the global form, the draft keeps its fields, the draft's
   * room list is exactly the room forms submitted so far, and the flow has
   * left the user step for good with the adjacency flag off.
   */
  lemma {:induction false} MainFormStaysIn(subs: seq<Submission>)
    requires subs != [] && Run(Start(), subs).Some?
    ensures subs[0].MainSub?
    ensures HoldsMainForm(Run(Start(), subs).value.flow.data, subs[0].main)
    ensures Run(Start(), subs).value.flow.data.roomConf == RoomsOf(subs)
    ensures Run(Start(), subs).value.flow.step != User
    ensures !Run(Start(), subs).value.flow.data.useAdjacency
    decreases |subs|
  {
    ReachableIsConsistent(subs);
    if |subs| == 1 {
      assert Start() == Outcome(Initial, ShowForm(User));
      assert Fits(User, subs[0]);
      assert subs[1..] == [];
    } else {
      var prefix := subs[..|subs| - 1];
      var last := subs[|subs| - 1];
      assert subs == prefix + [last];
      assert prefix[0] == subs[0];
      RunPrefix(Start(), prefix, [last]);
      MainFormStaysIn(prefix);
      RunAppend(Start(), prefix, [last]);
      RoomsOfAppend(prefix, [last]);
      var before := Run(Start(), prefix).value;
      assert Run(before, [last]).Some?;
      assert Fits(before.flow.step, last);
      assert [last][1..] == [];
    }
  }

  /**
   * No run, complete or not, holds more room forms than the global form
   * declared: the room step stops accepting them once the count is reached.
   */
  lemma RoomsWithinDeclared(subs: seq<Submission>)
    requires subs != [] && Run(Start(), subs).Some?
    ensures subs[0].MainSub? && |RoomsOf(subs)| <= subs[0].main.numRooms
  {
    MainFormStaysIn(subs);
    ReachableIsConsistent(subs);
  }

  /**
   * From the room form with n rooms still missing, n room submissions
   * complete the flow with those rooms appended in order.
   */
  lemma {:induction false} RoomsComplete(o: Outcome, rooms: seq<RoomForm>)
    requires o.flow.step == Room && !o.flow.data.useAdjacency
    requires |rooms| >= 1 && |o.flow.data.roomConf| + |rooms| == o.flow.data.numRooms
    ensures Run(o, RoomSubs(rooms)) == Some(Final(o.flow.data.(roomConf := o.flow.data.roomConf + rooms)))
    decreases |rooms|
  {
    var d := o.flow.data;
    var o1 := Handle(o.flow, RoomSub(rooms[0]));
    assert RoomSubs(rooms)[1..] == RoomSubs(rooms[1..]);
    if |rooms| == 1 {
      assert d.roomConf + rooms == d.roomConf + [rooms[0]];
      assert RoomSubs(rooms[1..]) == [];
    } else {
      RoomsComplete(o1, rooms[1..]);
      assert d.roomConf + [rooms[0]] + rooms[1..] == d.roomConf + rooms;
    }
  }

  /**
   * Conversely, a run from the room form that ends with the entry consists
   * of room submissions only, exactly as many as are missing, and its entry
   * holds the earlier rooms followed by the submitted ones.
   */
  lemma RoomsOnly(o: Outcome, subs: seq<Submission>, final: Outcome)
    requires o.flow.step == Room && o.result == ShowForm(Room) && !o.flow.data.useAdjacency
    requires |o.flow.data.roomConf| < o.flow.data.numRooms
    requires Run(o, subs) == Some(final) && final.result.CreateEntry?
    ensures subs == RoomSubs(RoomsOf(subs))
    ensures |o.flow.data.roomConf| + |RoomsOf(subs)| == o.flow.data.numRooms
    ensures final == Final(o.flow.data.(roomConf := o.flow.data.roomConf + RoomsOf(subs)))
  {
    RoomRunShape(o, subs);
    RoomSubsOfRooms(subs);
    RoomsComplete(o, RoomsOf(subs));
  }

  /** Only room submissions, and exactly the missing number of them, end a run from the room form. */
  lemma {:induction false} RoomRunShape(o: Outcome, subs: seq<Submission>)
    requires o.flow.step == Room && o.result == ShowForm(Room) && !o.flow.data.useAdjacency
    requires |o.flow.data.roomConf| < o.flow.data.numRooms
    requires Run(o, subs).Some? && Run(o, subs).value.result.CreateEntry?
    ensures AllRoomSubs(subs) && |o.flow.data.roomConf| + |subs| == o.flow.data.numRooms
    decreases |subs|
  {
    FirstIsRoomForm(o, subs);
    var o1 := RoomTransition(o.flow, Some(subs[0].room));
    if |o.flow.data.roomConf| + 1 == o.flow.data.numRooms {
      NothingAfterDone(o1, subs[1..]);
    } else {
      RoomRunShape(o1, subs[1..]);
    }
  }

  predicate AllRoomSubs(subs: seq<Submission>) {
    forall i | 0 <= i < |subs| :: subs[i].RoomSub?
  }

  /** A sequence of room submissions is the room submissions of its rooms. */
  lemma {:induction false} RoomSubsOfRooms(subs: seq<Submission>)
    requires AllRoomSubs(subs)
    ensures subs == RoomSubs(RoomsOf(subs)) && |RoomsOf(subs)| == |subs|
    decreases |subs|
  {
    if subs != [] {
      RoomSubsOfRooms(subs[1..]);
      RoomsOfCons(subs);
    }
  }

  /** A completed run from the room form starts with a room submission. */
  lemma FirstIsRoomForm(o: Outcome, subs: seq<Submission>)
    requires o.flow.step == Room && o.result == ShowForm(Room)
    requires Run(o, subs).Some? && Run(o, subs).value.result.CreateEntry?
    ensures subs != [] && subs[0].RoomSub?
    ensures Run(o, subs) == Run(RoomTransition(o.flow, Some(subs[0].room)), subs[1..])
  {
  }

  /** A finished flow accepts no submission. */
  lemma NothingAfterDone(o: Outcome, subs: seq<Submission>)
    requires o.flow.step == Done && Run(o, subs).Some?
    ensures subs == [] && Run(o, subs) == Some(o)
  {
  }

  /** Peeling a leading room submission off the front. */
  lemma RoomsOfCons(subs: seq<Submission>)
    requires subs != [] && subs[0].RoomSub?
    ensures subs == [RoomSub(subs[0].room)] + subs[1..]
    ensures RoomsOf(subs) == [subs[0].room] + RoomsOf(subs[1..])
    ensures RoomSubs(RoomsOf(subs)) == [RoomSub(subs[0].room)] + RoomSubs(RoomsOf(subs[1..]))
  {
    assert RoomsOf(subs)[1..] == RoomsOf(subs[1..]);
  }

  /**
   * Every well-formed set of answers completes the wizard: the global form,
   * the boiler form exactly when the flag is set, and one room form per
   * declared room produce the entry titled with the name.
   */
  lemma WizardCompletes(m: MainForm, b: Option<BoilerForm>, rooms: seq<RoomForm>)
    requires CompletingInputs(m, b, rooms)
    ensures Run(Start(), Script(m, b, rooms)) == Some(Final(Entry(m, b, rooms)))
  {
    var s := Script(m, b, rooms);
    assert s[0] == MainSub(m);
    assert s[1..] == ScriptAfterMain(b, rooms);
    var o1 := Handle(Start().flow, MainSub(m));
    if b.Some? {
      var rest := s[1..];
      assert rest[0] == BoilerSub(b.value);
      assert rest[1..] == RoomSubs(rooms);
      var o2 := Handle(o1.flow, BoilerSub(b.value));
      RoomsComplete(o2, rooms);
      assert o2.flow.data.(roomConf := o2.flow.data.roomConf + rooms) == Entry(m, b, rooms);
    } else {
      RoomsComplete(o1, rooms);
      assert o1.flow.data.(roomConf := o1.flow.data.roomConf + rooms) == Entry(m, b, rooms);
    }
  }

  /**
   * Every run that ends with the entry is such a script: one global form,
   * a boiler form exactly when the flag is set, then exactly as many room
   * forms as declared; the entry records all of them.
   */
  lemma CompletedRunIsScript(subs: seq<Submission>)
    requires Run(Start(), subs).Some? && Run(Start(), subs).value.result.CreateEntry?
    ensures subs != [] && subs[0].MainSub?
    ensures CompletingInputs(subs[0].main, BoilerOf(subs), RoomsOf(subs))
    ensures subs == Script(subs[0].main, BoilerOf(subs), RoomsOf(subs))
    ensures Run(Start(), subs).value == Final(Entry(subs[0].main, BoilerOf(subs), RoomsOf(subs)))
  {
    FirstIsMainForm(subs);
    var m := subs[0].main;
    var rest := subs[1..];
    CompletedAfterMain(m, UserTransition(Initial, Some(m)), rest);
    MainFormCarriesNothing(subs);
  }

  /** A completed run starts with a valid global form. */
  lemma FirstIsMainForm(subs: seq<Submission>)
    requires Run(Start(), subs).Some? && Run(Start(), subs).value.result.CreateEntry?
    ensures subs != [] && subs[0].MainSub? && ValidMainForm(subs[0].main)
    ensures Run(Start(), subs) == Run(UserTransition(Initial, Some(subs[0].main)), subs[1..])
  {
  }

  /** The global form contributes neither a boiler form nor a room form. */
  lemma MainFormCarriesNothing(subs: seq<Submission>)
    requires subs != [] && subs[0].MainSub?
    ensures BoilerOf(subs) == BoilerOf(subs[1..]) && RoomsOf(subs) == RoomsOf(subs[1..])
    ensures subs == [MainSub(subs[0].main)] + subs[1..]
  {
  }

  /** The rest of a completed run once the global form is in. */
  lemma CompletedAfterMain(m: MainForm, o1: Outcome, rest: seq<Submission>)
    requires ValidMainForm(m) && o1 == UserTransition(Initial, Some(m))
    requires Run(o1, rest).Some? && Run(o1, rest).value.result.CreateEntry?
    ensures CompletingInputs(m, BoilerOf(rest), RoomsOf(rest))
    ensures rest == ScriptAfterMain(BoilerOf(rest), RoomsOf(rest))
    ensures Run(o1, rest).value == Final(Entry(m, BoilerOf(rest), RoomsOf(rest)))
  {
    if m.hasBoiler {
      CompletedAfterBoilerForm(m, o1, rest);
    } else {
      CompletedAfterMainForm(m, o1, rest);
    }
  }

  /** The rest of a completed run once a global form without the boiler flag is in. */
  lemma CompletedAfterMainForm(m: MainForm, o1: Outcome, rest: seq<Submission>)
    requires ValidMainForm(m) && !m.hasBoiler && o1 == UserTransition(Initial, Some(m))
    requires Run(o1, rest).Some? && Run(o1, rest).value.result.CreateEntry?
    ensures BoilerOf(rest) == None && |RoomsOf(rest)| == m.numRooms
    ensures rest == ScriptAfterMain(None, RoomsOf(rest))
    ensures Run(o1, rest).value == Final(Entry(m, None, RoomsOf(rest)))
  {
    RoomsOnly(o1, rest, Run(o1, rest).value);
    BoilerOfRooms(RoomsOf(rest));
    assert o1.flow.data.(roomConf := o1.flow.data.roomConf + RoomsOf(rest)) == Entry(m, None, RoomsOf(rest));
  }

  /** The rest of a completed run once a global form with the boiler flag is in. */
  lemma CompletedAfterBoilerForm(m: MainForm, o1: Outcome, rest: seq<Submission>)
    requires ValidMainForm(m) && m.hasBoiler && o1 == UserTransition(Initial, Some(m))
    requires Run(o1, rest).Some? && Run(o1, rest).value.result.CreateEntry?
    ensures rest != [] && rest[0].BoilerSub? && ValidBoilerForm(rest[0].boiler)
    ensures BoilerOf(rest) == Some(rest[0].boiler) && |RoomsOf(rest)| == m.numRooms
    ensures rest == ScriptAfterMain(Some(rest[0].boiler), RoomsOf(rest))
    ensures Run(o1, rest).value == Final(Entry(m, Some(rest[0].boiler), RoomsOf(rest)))
  {
    assert rest != [];
    assert Fits(Boiler, rest[0]);
    var b := rest[0].boiler;
    var o2 := Handle(o1.flow, rest[0]);
    assert Run(o1, rest) == Run(o2, rest[1..]);
    RoomsOnly(o2, rest[1..], Run(o2, rest[1..]).value);
    assert rest == [rest[0]] + rest[1..];
    assert RoomsOf(rest) == RoomsOf(rest[1..]);
    assert o2.flow.data.(roomConf := o2.flow.data.roomConf + RoomsOf(rest)) == Entry(m, Some(b), RoomsOf(rest));
  }

  /** Room submissions carry no boiler form. */
  lemma {:induction false} BoilerOfRooms(rooms: seq<RoomForm>)
    ensures BoilerOf(RoomSubs(rooms)) == None
    decreases |rooms|
  {
    if rooms != [] {
      BoilerOfRooms(rooms[1..]);
    }
  }
}
