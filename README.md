# Phone redirect registry and planetary rover, modelled in Dafny

This project models two exercises from a C++ course repository.

**Maptel** (`maptel.dfy`) is a global register of phone-number dictionaries. `maptel_create` hands out ids from an `unsigned long` counter. `maptel_delete` drops a dictionary. `maptel_insert` and `maptel_erase` add and remove a redirection `src -> dst`. `maptel_transform` follows the redirections from a number to the end of its chain, and answers the number itself when the chain runs into a cycle. Dictionary ids are `nat`s below 2^64, and the counter wraps explicitly. The debug checks become `requires`:
- the dictionary exists;
- a number is non-empty, at most `TEL_NUM_MAX_LEN` characters long, and made only of digits or NUL;
- the transform result fits the caller's buffer.

The meaning of `maptel_transform` is the ghost function `Transformed`, defined by the existence of a redirect chain that ends at an unredirected number. The loop of `Registry.Transform` is proved against it. It tracks a ghost walk and the `visited` set, and terminates because the unvisited redirect targets shrink.

**The rover** exists in two designs:
- The second design is `6_Rover/`. Its model is `Positioning`, `Management`, `Commands`, `Report` and `RoverV2`.
- The first design is `Rover/`. Its model is `RoverV1` and `PositionObject`.

A rover stands on an integer grid, faces one of four directions, and has `landed` and `stopped` flags. Characters bound to commands drive it:
- MoveForward and MoveBackward step one cell along `move_vector`, only if every sensor reports the target safe;
- RotateRight and RotateLeft turn a quarter;
- Compose runs sub-commands until the first failure.

Commands are a recursive datatype. The functions `Apply` and `Exec` give their meaning. Each design's imperative `run`/`execute` is a method proved to compute that function on its object state: `Commands.Run` and `RoverV2.Rover.Execute`, then `RoverV1.RunV1` and `RoverV1.Rover.Execute`.

The first design routes every command through one `move(position, direction)`. `ApplyV1Agrees` proves that it gives every command the same meaning as the second design. The first design's `check_position` asks every sensor. The second design's stops at the first refusal. For pure sensors the two agree (`ConjunctionIsAllSafe`).

The status text `operator<<` writes is `Report.Status`. It is "unknown" before landing, otherwise "(x, y) DIR" plus " stopped". The text of a landed rover determines its state (`StatusInjective`). That rests on a decimal printer for `int` with a parse-back round trip (`Decimal`).

## Model

| member | source | states |
|---|---|---|
| Maptel.CorrectTelChars | 2_Maptel/maptel.cc:35-42 | answers true exactly when every character is a decimal digit or NUL |
| Maptel.IsTel | 2_Maptel/maptel.cc:118-141 | what the debug checks demand of a number argument: non-empty, at most `TEL_NUM_MAX_LEN` characters, every character a digit or NUL (the same checks recur at 191-205 and 253-273); the precondition of `Insert`, `Erase` and `Transform` |
| Maptel.Transformed | 2_Maptel/maptel.cc:305-328 | the transform result: the end of the redirect chain from `src` when there is one (a number with no redirection), otherwise `src`; a redirected result can only be `src` |
| Maptel.ChainsAgree | 2_Maptel/maptel.cc:313-325 | the walk is deterministic: two walks from one number agree position by position |
| Maptel.EndUnique | 2_Maptel/maptel.cc:313-326 | a redirect chain has at most one end, so the transform result is well defined |
| Maptel.TrappedWalk | 2_Maptel/maptel.cc:316-319 | a walk starting inside a set closed under redirection stays in it |
| Maptel.NoEndFromClosedSet | 2_Maptel/maptel.cc:316-319 | once a number comes round again the chain has no end, which is why the cycle case answers `tel_src` |
| Maptel.TransformedUnmapped | 2_Maptel/maptel.cc:310-313 | a number without a redirection is transformed to itself |
| Maptel.TransformAfterRedirect | 2_Maptel/maptel.cc:305-326 | after inserting `src -> dst` with `dst` unredirected and different from `src`, `src` transforms to `dst` |
| Maptel.TransformSelfRedirect | 2_Maptel/maptel.cc:313-319 | a number redirected to itself is a cycle and transforms to itself |
| Maptel.TransformIdempotent | 2_Maptel/maptel.cc:305-328 | transforming a transform result changes nothing |
| Maptel.Registry.constructor | 2_Maptel/maptel.cc:22-33 | register empty, counter 0 |
| Maptel.Registry.Create | 2_Maptel/maptel.cc:54-68 | returns the old counter and advances it modulo 2^64; dictionary `id` is created empty if absent, others untouched; before wrap-around the id is new, below the counter, and its dictionary is empty |
| Maptel.Registry.Delete | 2_Maptel/maptel.cc:90-102 | removes exactly dictionary `id`; every other dictionary and the counter are unchanged |
| Maptel.Registry.Insert | 2_Maptel/maptel.cc:164-175 | `maps[id][src] == dst`, overwriting; every other number and every other dictionary unchanged |
| Maptel.Registry.Erase | 2_Maptel/maptel.cc:228-239 | `src` is absent afterwards; a no-op when it was absent; every other number and dictionary unchanged |
| Maptel.Registry.Transform | 2_Maptel/maptel.cc:300-340 | the loop with its visited set returns `Transformed(maps[id], src)` and leaves the register unchanged; the answer is `src` or an unredirected number |
| Decimal.NatText | 6_Rover/positioning.h:52-55 | the printed digits of a natural number: non-empty, digits only, no leading zero |
| Decimal.IntText | 6_Rover/positioning.h:52-55 | printed integer: non-empty, digits and minus only, leading minus exactly for negatives |
| Decimal.NatTextRoundTrip | 6_Rover/positioning.h:52-55 | the value of the printed digits is the number |
| Decimal.IntTextRoundTrip | 6_Rover/positioning.h:52-55 | parsing the printed integer gives it back |
| Decimal.IntTextInjective | 6_Rover/positioning.h:52-55 | distinct integers print differently |
| Positioning.Code | 6_Rover/positioning.h:12-17 | enum values are 0..3 |
| Positioning.FromCode | 6_Rover/positioning.h:12-17 | the cast `Direction(c)` is the inverse of the enum value |
| Positioning.CodeRoundTrip | 6_Rover/positioning.h:12-17 | enum value and cast are mutually inverse bijections between directions and 0..3 |
| Positioning.Name | 6_Rover/positioning.h:19-25 | each direction name is non-empty and has no space |
| Positioning.NameInjective | 6_Rover/positioning.h:19-25 | the names tell directions apart |
| Positioning.Plus | 6_Rover/positioning.h:57-62 | componentwise sum of a copy; subtracting `q` again gives `p` back |
| Positioning.Minus | 6_Rover/positioning.h:64-69 | componentwise difference of a copy; its round trip with `Plus` is `PlusMinusCancel` |
| Positioning.PlusMinusCancel | 6_Rover/positioning.h:57-69 | `(p + v) - v == p` and `(p - v) + v == p` |
| Positioning.MoveVector | 6_Rover/positioning.h:45-50 | every step is a unit vector along an axis |
| Positioning.OppositeCode | 6_Rover/positioning.h:12-17 | half a turn from `d` has the enum value `(d + 2) % 4` |
| Positioning.OppositeStep | 6_Rover/positioning.h:45-50 | the opposite direction's step is the negated step |
| Positioning.MoveVectorOpposite | 6_Rover/positioning.h:45-50 | `move_vector[(d + 2) % 4] == -move_vector[d]` |
| Positioning.MoveVectorClockwise | 6_Rover/positioning.h:45-50 | the next direction clockwise steps along the vector rotated a quarter clockwise |
| Positioning.Text | 6_Rover/positioning.h:52-55 | "(x, y)": at least six characters, opening with "(" and closing with ")" |
| Positioning.UntilPrefix | 6_Rover/positioning.h:52-55 | the text before the first separator is the part that has none |
| Positioning.SplitAt | 6_Rover/positioning.h:52-55 | a text split at the first separator splits only one way |
| Positioning.PairTextSplit | 6_Rover/positioning.h:52-55 | "(a, b)" with no comma in `a` and no ")" in `b` determines `a` and `b` |
| Positioning.TextInjective | 6_Rover/positioning.h:52-55 | the text of a position determines the position |
| Management.RoverManagement.constructor | Rover/rover_management.h:33-36 | stores the sensors, starts at (0, 0) facing north |
| Management.RoverManagement.CheckPosition | Rover/rover_management.h:38-44 | true exactly when every sensor accepts the cell (so true without sensors); false names a refusing sensor |
| Management.RoverManagement.GetDirectionInt | Rover/rover_management.h:50-52 | always in 0..3 and the code of the direction |
| Management.RoverManagement.GetPosition | Rover/rover_management.h:46-48 | the current position, read without a change (a copy) |
| Management.RoverManagement.SetPosition | Rover/rover_management.h:54-56 | sets the position without a sensor check; direction unchanged |
| Management.RoverManagement.SetPositionWithCheck | Rover/rover_management.h:58-64 | succeeds exactly when every sensor accepts; moves only then; never turns |
| Management.RoverManagement.SetDirection | Rover/rover_management.h:66-69 | always succeeds, sets the direction, keeps the position |
| Commands.StepTo | 6_Rover/command.h:21-39 | a step succeeds exactly when all sensors accept the target, moves only then, never turns |
| Commands.TurnRight | 6_Rover/command.h:45-48 | the direction with enum value `(d + 1) % 4`, never `d` itself |
| Commands.TurnLeft | 6_Rover/command.h:55-58 | the direction with enum value `(d + 3) % 4`, never `d` itself |
| Commands.Apply | 6_Rover/command.h:21-74 | the meaning of one command on a pose: a checked step along `move_vector`, a quarter turn, or the composition; its properties are the lemmas below and `Run` is proved to compute it |
| Commands.ApplyAll | 6_Rover/command.h:68-74 | the sub-commands in order, stopping at the first failure with the pose it left; its properties are `ApplyAllSnoc`, `ApplyAllAppend` and `ComposeStopsAtFailure` |
| Commands.TurnsInverse | 6_Rover/command.h:41-59 | right and left turns undo each other |
| Commands.FourTurns | 6_Rover/command.h:41-59 | four right turns, or four left ones, are the identity |
| Commands.ApplyAllSnoc | 6_Rover/command.h:68-74 | running one more sub-command after a successful prefix |
| Commands.ApplyAllAppend | 6_Rover/command.h:68-74 | running `a + b` is running `a`, then `b` unless `a` failed |
| Commands.ComposeStopsAtFailure | 6_Rover/command.h:68-74 | nothing after a failed sub-command runs; earlier effects remain |
| Commands.ComposeFlattens | 6_Rover/command.h:61-74 | a composition of two compositions is the composition of their concatenation |
| Commands.ComposeSingle | 6_Rover/command.h:61-74 | a one-element composition is its element |
| Commands.RightThenLeft | 6_Rover/command.h:41-59 | right then left always succeeds and restores the pose |
| Commands.FourRights | 6_Rover/command.h:41-49 | four rights always succeed and restore the pose |
| Commands.ForwardThenBackward | 6_Rover/command.h:21-39 | forward then backward, both cells safe, succeeds and restores the pose |
| Commands.NoSensorsNeverFail | 6_Rover/command.h:12-78 | without sensors no command fails |
| Commands.NoSensorsNeverFailAll | 6_Rover/command.h:68-74 | without sensors no composition fails |
| Commands.Run | 6_Rover/command.h:12-78 | running a command through the setters yields exactly the result and pose of `Apply` |
| Report.Status | 6_Rover/rover.h:86-95 | "unknown" exactly when not landed; a landed rover's text begins with "(" |
| Report.StatusInjective | 6_Rover/rover.h:86-95 | a landed rover's status determines its position, direction and stop flag |
| Report.RestSplit | 6_Rover/rover.h:90-91 | the position text, direction name and stop suffix can be read back from a landed status |
| Report.StatusParts | 6_Rover/rover.h:86-95 | a landed status begins with the position's text and ends in " stopped" when stopped, else in the direction name |
| Report.PrefixAndSuffix | 6_Rover/rover.h:90-91 | in a string built as `a + b + c`, as the status text is, `a` is a prefix and `c` a suffix |
| Report.Suffix | 6_Rover/rover.h:91 | " stopped" exactly for a stopped rover, else empty |
| RoverV2.Exec | 6_Rover/rover.h:68-76 | the characters in order, stopping at the first unbound one or failed command with the pose reached; `Rover.Execute` is proved to compute it, and `ExecAppend`, `UnboundStops` and `ExecIsCompose` state its properties |
| RoverV2.ExecAppend | 6_Rover/rover.h:70-76 | executing `s + t` is executing `s`, then `t` unless the rover stopped |
| RoverV2.UnboundStops | 6_Rover/rover.h:70-75 | an unbound character stops the rover and nothing after it runs |
| RoverV2.BoundCommands | 6_Rover/rover.h:70-76 | the commands bound to a string, one per character, in order |
| RoverV2.ExecIsCompose | 6_Rover/rover.h:70-76 | a fully bound string executes as the composition of its commands |
| RoverV2.NoSensorsRunsThrough | 6_Rover/rover.h:68-76 | with no sensors and every character bound, the stop flag ends false |
| RoverV2.Rover.constructor | 6_Rover/rover.h:56-61 | not landed, not stopped, at (0, 0) facing north with the given commands and sensors |
| RoverV2.Rover.Execute | 6_Rover/rover.h:63-77 | before landing: the logic error and no change; after: stop flag is `!Exec(...).ok` and pose is `Exec(...).pose` |
| RoverV2.Rover.Land | 6_Rover/rover.h:79-84 | landed, not stopped, at the given position and direction |
| RoverV2.Rover.Status | 6_Rover/rover.h:86-95 | "unknown" exactly when not landed |
| RoverV2.RoverBuilder.constructor | 6_Rover/rover.h:43-54 | no commands, no sensors |
| RoverV2.RoverBuilder.ProgramCommand | 6_Rover/rover.h:117-120 | binds `c`, overwriting its earlier binding; other bindings and sensors unchanged |
| RoverV2.RoverBuilder.AddSensor | 6_Rover/rover.h:122-125 | appends the sensor at the end |
| RoverV2.RoverBuilder.Build | 6_Rover/rover.h:127-129 | a fresh unlanded rover with the builder's commands and sensors, status "unknown" |
| RoverV1.MoveTo | Rover/rover.h:221-232 | target = current position: only turns, succeeds; otherwise moves exactly when all sensors accept, keeps the direction, returns false and changes nothing on refusal |
| RoverV1.ApplyV1 | Rover/rover.h:97-157 | the meaning of one command when every command is a call of `move`; equal to `Commands.Apply` by `ApplyV1Agrees`, and `RunV1` is proved to compute it |
| RoverV1.ApplyAllV1 | Rover/rover.h:146-153 | the sub-commands in order through `move`, stopping at the first failure; equal to `Commands.ApplyAll` by `ApplyAllV1Agrees` |
| RoverV1.StepLeaves | Rover/positioning.h:62-67 | a step forward or backward always leaves the current cell |
| RoverV1.ApplyV1Agrees | Rover/rover.h:97-157 | every command means the same through `move` as through the second design's setters |
| RoverV1.ApplyAllV1Agrees | Rover/rover.h:146-153 | the same for compositions |
| RoverV1.ApplyAllV1StopsAtFailure | Rover/rover.h:146-153 | nothing after a failed sub-command runs |
| RoverV1.Conjunction | Rover/rover.h:214-218 | the value `good &= is_safe(x, y)` leaves after asking every sensor in order from `true`; equal to `AllSafe` by `ConjunctionIsAllSafe` |
| RoverV1.ConjunctionIsAllSafe | Rover/rover.h:213-219 | asking every sensor gives the same answer as stopping at the first refusal |
| RoverV1.Rover.constructor | Rover/rover.h:180-188 | at (0, 0) facing north, not landed, not stopped |
| RoverV1.Rover.Execute | Rover/rover.h:190-204 | before landing: the logic error and no change; after: the same stop flag and pose as the second design's `Exec` |
| RoverV1.Rover.Land | Rover/rover.h:206-211 | landed, not stopped, at the given position and direction |
| RoverV1.Rover.Status | Rover/rover.h:234-242 | "unknown" exactly when not landed |
| RoverV1.RoverManagement.constructor | Rover/rover.h:60 | a handle on the given rover |
| RoverV1.RoverManagement.CheckPosition | Rover/rover.h:213-219 | the conjunction of all sensors' answers, equal to every sensor accepting |
| RoverV1.RoverManagement.Move | Rover/rover.h:221-232 | result and new pose are `MoveTo`'s; flags untouched |
| RoverV1.RoverManagement.GetDirection | Rover/rover.h:248-250 | always in 0..3 and the code of the direction |
| RoverV1.RoverManagement.GetPosition | Rover/rover.h:244-246 | the rover's own position field, read without a change |
| RoverV1.RunV1 | Rover/rover.h:97-157 | running a command through `move` yields exactly `ApplyV1` |
| RoverV1.RoverBuilder.constructor | Rover/rover.h:65-67 | no commands, no sensors |
| RoverV1.RoverBuilder.ProgramCommand | Rover/rover.h:69-72 | binds `c`, overwriting its earlier binding |
| RoverV1.RoverBuilder.AddSensor | Rover/rover.h:74-77 | appends the sensor at the end |
| RoverV1.RoverBuilder.Build | Rover/rover.h:79-81 | a fresh rover at (0, 0) facing north, unlanded, status "unknown", with the builder's commands and sensors |
| PositionObject.Position.constructor | Rover/positioning.h:30 | the coordinates are the arguments |
| PositionObject.Position.AddAssign | Rover/positioning.h:45-49 | in place, componentwise sum with the old value of `rhs`, also when `rhs` is the object itself; returns the object itself (`return *this`) |
| PositionObject.Position.SubAssign | Rover/positioning.h:50-54 | in place, componentwise difference, also when `rhs` is the object itself; returns the object itself (`return *this`) |
| PositionObject.Position.Plus | Rover/positioning.h:37-39 | a new object holding the sum; neither operand changes |
| PositionObject.Position.Minus | Rover/positioning.h:41-43 | a new object holding the difference; neither operand changes |
| PositionObject.AddThenSubtract | Rover/positioning.h:45-54 | `p += q; p -= q` restores `p` when `q` is another object, and leaves (0, 0) when `q` is `p` |

## Left out

- Maptel's constant `TEL_NUM_MAX_LEN` is declared in `maptel.h`, which is not part of this model. The value 22 is assumed.
- Maptel's `cerr` logging, `assert` plumbing and the `NDEBUG` switch are left out. The debug checks are stated as `requires`, so the release-mode behaviour outside them is not modelled. That behaviour includes `operator[]` silently creating a missing dictionary in `maptel_insert`, `maptel_erase` and `maptel_transform`.
- Maptel's heap-allocated singleton (`maps()`), `NULL` pointer arguments, and C strings in general are left out. Numbers are strings. The `strcpy` into the caller's buffer is the returned string, with the buffer size as a precondition.
- Maptel.Registry.Create: after 2^64 creations an id is reused. The contract states what then happens, that the existing dictionary is kept. Freshness and emptiness are promised only before wrap-around.
- Coordinates are unbounded integers. `int`/`int32_t` overflow is undefined behaviour in C++ and is not modelled, so `PlusMinusCancel` and `AddThenSubtract` hold without the int bounds.
- Sensors are pure functions `(int, int) -> bool`. A sensor whose answer depends on hidden state, or on how often it was asked, is not modelled. The order and number of `is_safe` calls are visible only in the method loops.
- Stream output (`operator<<` onto `std::ostream`) is modelled as the string it writes.
- `shared_ptr`/`unique_ptr` ownership, `virtual` dispatch over `Command`, and the factory functions `move_forward`, `move_backward`, `rotate_right`, `rotate_left` and `compose` are left out. Commands are values of one datatype, and the factories are its constructors.
- `Rover::execute` throws a `std::logic_error`. Here it returns `LogicError` with the same message and leaves the rover unchanged.
- RoverV2.Rover.Status: states only the "unknown" case. The landed text is `Report.Status`, whose properties are `StatusInjective` and `StatusParts`.
- RoverV1.Rover.Status: states only the "unknown" case, for the same reason.
- The builder methods return `*this` for chaining in the C++. Here they are methods that update the builder.
- The default-constructed `Position` of `Rover/positioning.h:29` has indeterminate coordinates and is not modelled.
- Maptel's counter is an `unsigned long`, taken to be 64 bits wide as on LP64 platforms. On a platform with a 32-bit `unsigned long` the wrap-around would come at 2^32.
- The C++ `char` of command keys and of `std::string` is a byte. The model uses Dafny's `char` for the characters of `execute` and the keys of `program_command`, and likewise for phone numbers. Byte values outside one character set, and signedness of `char`, are not modelled.
- The first design, as written, reads `to_check.get_x()`/`get_y()` (`Rover/rover.h:216`) and compares positions with `==` (`Rover/rover.h:222`). `Rover/positioning.h` defines neither getters nor `operator==`. The model supplies plain field reads and componentwise equality.
- `RoverManagement::get_position` of the first design returns a reference to the rover's position, and `RotateRight`/`RotateLeft` pass that reference back to `move`. The model passes the value. This is the same here, because `move` compares before it writes.
