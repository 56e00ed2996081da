# UltraStat setup wizard, modelled in Dafny

UltraStat is a Home Assistant integration for a multi-room heating system.
Its only logic is the setup wizard (`ConfigFlowHandler`). The wizard asks
for a global form: name, room count, temperature unit, optional outdoor
sensors and a boiler flag. It then asks for a boiler form when the flag is
set, and for one room form per declared room. At the end it creates a
config entry titled with the name whose data is the whole accumulated
draft. An adjacency step exists in the code but cannot be reached, because
the user step forces its flag off.

The project has five modules:

- `Wrappers` (`wrappers.dfy`): `Option`.
- `Schema` (`schema.dfy`): the submitted values of `MAIN_SCHEMA`,
  `BOILER_SCHEMA`, `ROOM_SCHEMA` and the empty adjacency schema. A Required
  key is a plain field and an Optional key is an `Option`. The selector
  constraints that the host checks before a handler runs are predicates:
  `ValidMainForm` (room count at least `MinRooms` = 1) and `ValidBoilerForm`
  (rating in `[0, 500000]` BTU/h). The temperature unit, one of two values,
  is a datatype. The keys follow `const.py`.
- `ConfigFlow` (`config_flow.dfy`): the draft (`self.data`), the step tag,
  the handler result (`ShowForm(step)` or `CreateEntry(title, data)`), and
  the class `ConfigFlowHandler`. The class has the mutable draft `data` and
  `step`, the step whose form the host is showing (`Done` after the entry
  exists). Its four step methods (`StepUser`, `StepBoiler`, `StepRoom`,
  `StepAdjacency`) update `data` in place and call each other as the source
  does. Each one is proved against a pure transition function on a `Flow`
  value (`UserTransition`, ...). The contracts of those functions state
  what one call does. `Valid()` (that is, `Accepts(step, data)`) is the
  invariant that ties the draft to the step on screen.
- `Runs` (`runs.dfy`): host-driven runs. The host delivers each submission
  to the handler of the step on screen, and only after that step's schema
  accepted it (`Fits`). `Run` folds the transitions over a sequence of
  submissions. The lemmas prove the completion theorem in both directions:
  - Every valid set of answers completes (`WizardCompletes`).
  - Every completed run is exactly one global form, then a boiler form
    exactly when the flag is set, then exactly `num_rooms` room forms. Its
    entry is the reference draft `Entry(...)` (`CompletedRunIsScript`).
  - Every reachable state keeps the invariant, and the adjacency step is
    never reached (`ReachableIsConsistent`).
- `Scenarios` (`scenarios.dfy`): two sessions driven through the class
  methods.

The host's side is modelled as follows:
- A submission reaches only the step whose form is on screen. This is the
  `step == X` precondition on the class methods and the `Fits` check in
  `Run`.
- A submission the schema rejects never reaches a handler. The host just
  shows the same form again, so runs contain only accepted submissions, and
  `Run` is `None` for a sequence that contains a rejected or misrouted one.
- Before the user form is submitted the handler has no draft. The model
  starts from `EmptyDraft`, which nothing reads before that submission.

The code differs from its own documentation in one place, and the model
follows the code. The docstring of `gen_adjacency_schema`
(custom_components/ultrastat/config_flow.py:129) says it builds an adjacency
matrix schema from the number of rooms. The function returns an empty
schema (line 130), so `AdjacencyForm` has no fields.

## Model

| member | source | states |
|---|---|---|
| `ConfigFlow.UserTransition` | custom_components/ultrastat/config_flow.py:143-156 | Without input: shows the user form and keeps the draft. With a submission: the draft holds the submitted global fields, `room_conf` is empty and `use_adjacency` is false whatever the draft held before, and there is no boiler or adjacency configuration. The result is the boiler form exactly when `has_boiler` is set, otherwise the room form. The new draft satisfies the invariant of the step shown. |
| `ConfigFlow.BoilerTransition` | custom_components/ultrastat/config_flow.py:158-168 | Without input: shows the boiler form and keeps the draft. With a submission: `boiler_conf` becomes the submission, no other draft field changes, and the room form is shown. Preserves the step invariant. |
| `ConfigFlow.AdjacencyTransition` | custom_components/ultrastat/config_flow.py:170-182 | Without input: shows the adjacency form and keeps the draft. With a submission: stores it under `adjacency`, changes nothing else, and creates the entry titled with the draft name whose data is the whole new draft. |
| `ConfigFlow.RoomTransition` | custom_components/ultrastat/config_flow.py:184-201 | Without input: shows the room form and keeps the draft. With a submission: appends exactly that record to the end of `room_conf` and changes no other field. An entry (title = name, data = whole draft) is created exactly when the new count equals `num_rooms` and adjacency is off. Below the count the room form is shown again. At the count with adjacency on, the adjacency form is shown. Preserves the step invariant. |
| `ConfigFlow.ConfigFlowHandler.constructor` | custom_components/ultrastat/config_flow.py:133-137 | A new flow is at the user step and satisfies the invariant. |
| `ConfigFlow.ConfigFlowHandler.ShowFormOf` | custom_components/ultrastat/config_flow.py:156 | Showing a step's form puts that step on screen and leaves the draft unchanged. |
| `ConfigFlow.ConfigFlowHandler.StepUser` | custom_components/ultrastat/config_flow.py:143-156 | The in-place update of `self.data` and the hand-off to the boiler or room step give exactly the state and result of `UserTransition`. After a submission the invariant holds. |
| `ConfigFlow.ConfigFlowHandler.StepBoiler` | custom_components/ultrastat/config_flow.py:158-168 | Setting `boiler_conf` and handing off to the room step give exactly the state and result of `BoilerTransition`. Preserves the invariant. |
| `ConfigFlow.ConfigFlowHandler.StepAdjacency` | custom_components/ultrastat/config_flow.py:170-182 | Setting `adjacency` and creating the entry give exactly the state and result of `AdjacencyTransition`. Preserves the invariant. |
| `ConfigFlow.ConfigFlowHandler.StepRoom` | custom_components/ultrastat/config_flow.py:184-201 | Appending to `room_conf` and then creating the entry, showing the adjacency form or showing the room form again give exactly the state and result of `RoomTransition`. Preserves the invariant. |
| `Runs.HandleKeepsConsistent` | custom_components/ultrastat/config_flow.py:143-201 | Every accepted submission takes a consistent state to a consistent state: the draft agrees with the step on screen, the adjacency flag stays off, and the result is the current form or the entry. |
| `Runs.RunKeepsConsistent` | custom_components/ultrastat/config_flow.py:143-201 | Any sequence of accepted submissions keeps a consistent state consistent. |
| `Runs.ReachableIsConsistent` | custom_components/ultrastat/config_flow.py:147-201 | Every state a run reaches from the opened user form is consistent. The adjacency step is never on screen, and `use_adjacency` is false once the global form is in. |
| `Runs.RunAppend` | custom_components/ultrastat/config_flow.py:143-201 | Delivering two sequences of submissions one after the other is the same as delivering their concatenation. |
| `Runs.NothingAfterEntry` | custom_components/ultrastat/config_flow.py:195-197 | Once a run has created the entry, no further submission is accepted. |
| `Runs.RunPrefix` | custom_components/ultrastat/config_flow.py:143-201 | A run that accepts a whole sequence of submissions accepts each prefix of it. |
| `Runs.MainFormStaysIn` | custom_components/ultrastat/config_flow.py:147-199 | Along every run, complete or not, the first submission is the global form and the draft keeps its fields. The draft's `room_conf` is exactly the room forms submitted so far, in order. The flow never returns to the user step, and `use_adjacency` stays false. |
| `Runs.RoomsWithinDeclared` | custom_components/ultrastat/config_flow.py:188-199 | No run, complete or not, holds more room forms than the `num_rooms` the global form declared. |
| `Runs.RoomsComplete` | custom_components/ultrastat/config_flow.py:184-201 | From the room form with n rooms missing and adjacency off, n room submissions create the entry, with those rooms appended in order and title = name. |
| `Runs.RoomsOnly` | custom_components/ultrastat/config_flow.py:184-201 | From the room form, a run that ends with the entry holds only room submissions, exactly as many as were missing. The entry holds the earlier rooms followed by those. |
| `Runs.RoomRunShape` | custom_components/ultrastat/config_flow.py:188-199 | From the room form, a run that ends with the entry holds only room submissions, exactly as many as were missing below `num_rooms`. |
| `Runs.FirstIsRoomForm` | custom_components/ultrastat/config_flow.py:188-190 | A completed run from the room form starts with a room submission. Delivering it appends that room. |
| `Runs.NothingAfterDone` | custom_components/ultrastat/config_flow.py:195-197 | A run that goes on after the entry was created accepts nothing more. |
| `Runs.FirstIsMainForm` | custom_components/ultrastat/config_flow.py:147-154 | A completed run starts with a valid global form, delivered to the user step. |
| `Runs.CompletedAfterMain` | custom_components/ultrastat/config_flow.py:147-201 | After the global form, a completed run holds a boiler form exactly when `has_boiler` is set, then `num_rooms` room submissions. Its entry is the reference draft. |
| `Runs.WizardCompletes` | custom_components/ultrastat/config_flow.py:143-201 | For a valid global form with N ≥ 1 rooms, a boiler form given exactly when `has_boiler` is set, and N room forms, the run creates the entry. The entry is titled with the name, its data is the reference draft (boiler configuration as given, the N rooms in order, adjacency off), and the flow ends at Done. |
| `Runs.CompletedRunIsScript` | custom_components/ultrastat/config_flow.py:143-201 | Every run that creates an entry starts with a valid global form. It holds a boiler form exactly when `has_boiler` is set (a valid one), then exactly `num_rooms` room submissions and nothing else. The entry is the reference draft for those inputs, so `boiler_conf` is present iff `has_boiler` and `room_conf` has length `num_rooms`. |
| `Runs.CompletedAfterMainForm` | custom_components/ultrastat/config_flow.py:151-154 | After a global form without the boiler flag, a completed run holds only `num_rooms` room submissions and gives an entry without a boiler configuration. |
| `Runs.CompletedAfterBoilerForm` | custom_components/ultrastat/config_flow.py:151-166 | After a global form with the boiler flag, a completed run starts with one valid boiler submission, followed by `num_rooms` room submissions. Its entry carries that boiler configuration. |
| `Scenarios.TwoRoomsWithoutBoiler` | custom_components/ultrastat/config_flow.py:143-201 | Driving the class through a user form ("Main House", 2 rooms, no boiler) and two room forms creates an entry titled "Main House" with exactly those two rooms and no boiler configuration. |
| `Scenarios.OneRoomWithBoiler` | custom_components/ultrastat/config_flow.py:143-201 | Driving the class through a user form with the boiler flag, a boiler form and one room form creates an entry with that boiler configuration and that room. |

## Left out

- The Home Assistant host: the `ConfigFlow` base class, `async_show_form`
  and `async_create_entry` (here only the `ShowForm` and `CreateEntry`
  values), config-entry storage, and the `VERSION`/`MINOR_VERSION`
  constants.
- The validation done by voluptuous and the selectors. It appears only as
  the predicates `ValidMainForm` and `ValidBoilerForm` and as the field
  types. A rejected submission re-shows the same form in the host and never
  reaches a handler, so runs contain only accepted submissions.
- Entity and area resolution, and device-class and domain filtering. Entity
  and area references are opaque strings.
- The form defaults (Fahrenheit, boiler flag false) and the collapsed
  outdoor section. The model sees only the submitted values.
- `gen_adjacency_schema`: it returns an empty schema, so the adjacency form
  has no fields. The intended matrix input is not implemented and is not
  modelled.
- Numbers from `NumberSelector` arrive as floating-point values. The room
  count is a `nat` of at least 1 and the boiler rating an integer; floating
  point is not modelled.
- async/await and the host's flow-abandonment handling, which only serve
  the host's concurrency model.
- The config entry keeps a reference to the same dictionary as
  `self.data`. The model copies the draft value; nothing changes the draft
  after the entry is created, so the copy loses nothing.
- The `AttributeError` that Python raises if a step other than the user
  step reads `self.data` before the user form was submitted. The model's
  host protocol rules this out: a submission reaches only the step on
  screen, and the first step on screen is the user step.
