# Charging-group verification

A Dafny model of the charging-group controller of the Veltium charger firmware, and of the
smaller protocols around it, with proofs of what they promise. `dafny verify dfyconfig.toml`
checks all of it.

One charger of a group is elected master. It keeps a table of up to 40 chargers, counts those
that are plugged in (a three-phase charger weighs 3), shares a power budget and the limits of each
circuit among them, throws out the newest while the share is under the 6 A floor of Annex A of
IEC 61851-1, and admits chargers that ask. The modules follow the program:

| module | what it models |
|---|---|
| `Chargers` | rows, parameters, meter; byte and word truncation |
| `Eviction` | the loop that throws out the newest chargers, with its byte counters |
| `Allocator` | one calculation pass and the distribution of setpoints |
| `Budget`, `Counting` | what the budget is worth in watts, with and without a meter; what the counting loop makes of rows and phases |
| `Control` | the REPOSO / CALCULO / EQUILIBRADO machine on values, and admission |
| `Resting`, `Balancing` | when the machine changes its state, whom it lets in, and when it notices unused current |
| `GroupTable`, `GroupCodec` | the table in its buffer, the rotation that puts the master first, the text and flash encodings |
| `GroupRuns` | whole runs: control steps, DATA messages, new groups and deletions in any order |
| `Controller` | the controller as it runs, arrays and counters updated in place, proved to refine `Allocator` and `Control` |
| `Election` | the "Master here?" handshake over a network that loses, duplicates and reorders |
| `ElectionRounds`, `FlagNeeded`, `AnswersNeeded` | runs that show that each part of its assumption is needed |
| `Joining` | how a group forms round the winner, and how roles end |
| `TwoServers` | how many devices run the server, whatever their flags |
| `Runs` | finite runs of steps, and what every step keeps |
| `Handout` | the loop that hands out spare amperes |
| `Uart` | the serial frame encoder and the polled receiver |
| `RecordSync` | the backward walk over the ring of charging records |
| `Schedule` | the weekly matrix |
| `Words`, `Feistel`, `Blowfish` | the block cipher and its byte packing |
| `Registers`, `Crc`, `CrcCheck` | the bitwise CRC-32 and its check value |
| `Bootloader` | the row splitter and the run driver of the power board's update |
| `Tasks`, `Repeats`, `TaskOrder` | the task ordering loop of the bundled `idf.py`: a turn of the loop, tasks requested more than once, and what the queue promises |
| `Lists` | lists without repeats, and rotations |

Code that works on arrays, counters and fields is modelled by classes and loops whose contracts
tie the new state to a function of the old one; what the program promises is then proved of that
function.

## What the proofs assume

- A *regular* pass (`Allocator.Regular`): the circuits and phases of counted chargers exist, pilot
  states starting with B are B1 or B2, the three-phase flag of every charger in C2/B2/C1 agrees
  with its currents, and the rows that can never be thrown out leave everybody 6 A. The last
  condition is exactly that the loop never falls back to row 0 (`Eviction.NoFallbackIff`), stated on
  the table before the pass. Newest-first order, termination and the bounds over whole runs need no
  regularity.
- The *delivery window* of the election (`Election.Window`): when a prober leaves its loop it is
  still flagged as connected, every other device has handled one of its queries, and no answer to it
  is in flight or lost. `Election.Quiet` is the form for networks that only delay. All devices know
  each other; any device that is flagged as master or runs the server may send "Start client" at any
  time; and the application does not raise the master flag of a device that is probing, which
  the code refuses while the device counts as connected. That the device is still flagged as
  connected excludes a client task left over from an earlier role ending in the middle of a probe.
- The laws of a metered budget are for readings whose budget fits 16 bits (`Budget.NoWrap`).
- Numbers held in floats are integers here, as all of them are. Byte counters wrap as in the code;
  circuit limits, measured currents and powers are arbitrary natural numbers, so the results hold
  for every width.
- The value that `ReadFirebaseOlderSyncRecord` returns does not change during one synchronisation,
  and no recharge ends meanwhile.

## Where code and intention part

- CALCULO gives a setpoint to every row whose state starts with B, also to the rows it has just
  thrown out, which are in B1. Such a row denies permission only through its cleared request flag,
  so a DATA message that still shows C2, already under way when the charger was thrown out, or a
  renewed request grants permission again without an admission. `GroupRuns.EvictionUndoneByData`
  says exactly when the denial survives a message; `GroupRuns.EvictionUndoneHappens` is a group
  where it does not.
- `idf.py` announces that of a repeated task only the first occurrence is executed. Its dictionary
  of waiting tasks keeps the last one, so each time a repeated name is pulled forward its requests
  are turned by one. The first occurrence is executed if nothing requested before it leads to it
  (`TaskOrder.FirstRuns`), in general if and only if whole turns brought it back
  (`TaskOrder.FirstRunsIff`), and for a name listed by one command exactly in the first case, the
  last occurrence being executed otherwise (`TaskOrder.AnnouncementIff`, with the run of
  `TaskOrder.LaterRepeatRuns`).
- Without the delivery window two chargers can both become master
  (`Election.TwoMastersWithoutTheWindow`), and no part of it can be left out: not the connected flag
  (`FlagNeeded.TwoMastersWithoutTheFlag`), not the answers in flight or lost
  (`AnswersNeeded.TwoMastersWithAnswersInFlight`, `AnswersNeeded.TwoMastersWithAnswersLost`).
- The server task never looks at the flags of its device. A serving device that is told a second
  time to start a client gives up its master flag and goes on serving, so that the next prober meets
  silence and serves too, inside the window (`TwoServers.TwoServersInsideTheWindow`).
  `Election.AtMostOneMasterServes` is about servers with both flags up; at most one device runs the
  server as long as none of the steps that take such a flag down happens
  (`TwoServers.AtMostOneServes`, `TwoServers.DisturbedIff`).
- The handout of spare amperes remembers the last leftover in a byte. Started with at most 255 A it
  ends; with more than 255 A above what all eligible chargers can take it never does
  (`Handout.EndsByAmount`); in general it ends if and only if at most 255 A are left when nobody can
  take more (`Handout.EndsIff`). `Handout.EndlessHandout`
  is a group on which it goes on for ever. The call of `Reparto_Delta` is commented out.
- With a meter that counts house and chargers, three truncations to amperes let house and setpoints
  exceed the contracted power by less than one ampere; with one that counts the house alone they
  never do (`Budget.ContractKept`). `Budget.TotalKeepsIff` says when, `Budget.ContractExceeded` is a
  group where it happens.
- Storing 40 chargers in flash writes the terminator one byte past the buffer
  (`GroupCodec.StoreGroup`).
- Frames without payload, or with more than 256 bytes, are encoded but not received as such
  (`Uart.FrameIsParsedIff`).
- The three copies of the rotation loop restore different fields of the rows they move: place only,
  place and measurements, or the whole row. `GroupTable.Restore` tells them apart.

## Model

| member | source | states |
|---|---|---|
| Election.AtMostOneMasterServes | VeltiumCharger/main/coms/COAP_Nativo.cpp:1277-1323 | in every run, with loss, duplication and reordering, in which probers leave inside the delivery window, at most one device serves with both its flags up |
| Election.AtMostOneMasterWhenSettled | VeltiumCharger/main/coms/COAP_Nativo.cpp:1277-1323 | if nothing is lost, it is enough that no prober leaves with a query of its own or an answer to it in flight |
| Election.StepKeeps | VeltiumCharger/main/coms/Gestion_Grupo.cpp:304-350 | every step of every device and of the network keeps the invariant: two devices that are up never both passed the other in silence, answers to an up device are accounted for, servers met only silence |
| Election.RunKeeps | VeltiumCharger/main/coms/COAP_Nativo.cpp:1277-1323 | the invariant holds after every run |
| Election.InvariantIsSafe | VeltiumCharger/main/coms/COAP_Nativo.cpp:1295-1323 | the invariant implies that two devices serving as master are the same device |
| Election.DeliverKeeps | VeltiumCharger/main/coms/Gestion_Grupo.cpp:334-350 | handling "Master here?" and "Yes, Master here" keeps the invariant, because the flags are read at the moment of handling |
| Election.SettledRunIsRun | VeltiumCharger/main/coms/COAP_Nativo.cpp:1285-1294 | a run without loss in which probers wait for their own traffic is a run inside the delivery window: ten rounds reach everybody |
| Election.DeafProberServes | VeltiumCharger/main/coms/COAP_Nativo.cpp:1285-1323 | a prober that hears nothing always serves, after exactly what is left of its ten rounds of asking and checking, without touching the others |
| Election.TwoMastersWithoutTheWindow | VeltiumCharger/main/coms/COAP_Nativo.cpp:1277-1323 | from every initial state of two devices there is a run, with all queries still in flight, that ends with two masters: the window is needed |
| Joining.AllJoin | VeltiumCharger/main/coms/Gestion_Grupo.cpp:310-317 | from every state in which a device has called the others, delivering the calls and starting the client tasks makes every device that was not connected a client, and leaves the caller as it was |
| Joining.GroupForms | VeltiumCharger/main/coms/COAP_Nativo.cpp:1295-1323 | the winner of a probe ends up serving as master with every device that was not connected as its client |
| Joining.LoserJoins | VeltiumCharger/main/coms/Gestion_Grupo.cpp:342-350 | a prober that is told of a master stops at its next check, its client can be started, and it is a client and no longer a master |
| Joining.MasterAnswers | VeltiumCharger/main/coms/Gestion_Grupo.cpp:334-341 | a question is answered exactly by a device that is connected and flagged as master, and changes no device |
| Joining.ClientMayProbeAgain | VeltiumCharger/main/coms/COAP_Nativo.cpp:811-814 | a client whose task has ended can be made master and probe |
| Joining.MasterMayProbeAgain | VeltiumCharger/main/coms/COAP_Nativo.cpp:1277-1283 | a master whose server has stopped can probe again, except after its group was deleted |
| Joining.OutsiderGivesUp | VeltiumCharger/main/coms/COAP_Nativo.cpp:1308-1317 | a winner that is not in its own group gives both flags up and calls nobody |
| FlagNeeded.TwoMastersWithoutTheFlag | VeltiumCharger/main/coms/COAP_Nativo.cpp:1282-1295 | from two idle devices flagged as master there is a run in which both leave having met only silence, and both serve, because a leftover client task took one flag down: that part of the window is needed too |
| AnswersNeeded.TwoMastersWithAnswersInFlight | VeltiumCharger/main/coms/COAP_Nativo.cpp:1285-1295 | from two idle devices flagged as master there is a run in which everybody handles the questions, nothing is lost, an answer is in flight when the second leaves, and both are master |
| AnswersNeeded.TwoMastersWithAnswersLost | VeltiumCharger/main/coms/COAP_Nativo.cpp:1285-1295 | the same with the answers lost and none in flight |
| TwoServers.TwoServersInsideTheWindow | VeltiumCharger/main/coms/Gestion_Grupo.cpp:319-331 | from two idle devices flagged as master there is a run inside either form of the window after which both run the server: a second "Start client" clears the flag of the first but does not stop its server |
| TwoServers.DisturbedIff | VeltiumCharger/main/coms/Gestion_Grupo.cpp:311-350 | a step takes a flag of a running server down if and only if it hands it "Yes, Master here" or a second "Start client", or ends a client task on it |
| TwoServers.AtMostOneServes | VeltiumCharger/main/coms/COAP_Nativo.cpp:939-1043 | in every run inside the window without such a step, at most one device runs the server |
| TwoServers.AtMostOneServesWhenSettled | VeltiumCharger/main/coms/COAP_Nativo.cpp:939-1043 | the same for networks that only delay |
| Eviction.Newest | VeltiumCharger/main/group_control.cpp:850-860 | the search returns the evictable charger of greatest positive order, or row 0 when there is none |
| Eviction.StrideDown | VeltiumCharger/main/group_control.cpp:873-877 | a stride of 1 or 3 brings the byte counter nearer to 0 even when it wraps below 0 |
| Eviction.TurnProgress | VeltiumCharger/main/group_control.cpp:849-883 | each turn either leaves fewer chargers to find or brings the byte counter one stride nearer to 0 |
| Eviction.Evict | VeltiumCharger/main/group_control.cpp:849-884 | the loop ends on every table and every counter value, with a share of at least 6 A or the counter at 0 |
| Eviction.EvictIsNewestFirst | VeltiumCharger/main/group_control.cpp:850-884 | throughout the loop every charger still evictable with positive order is no newer than any that was thrown out |
| Eviction.TurnTracks | VeltiumCharger/main/group_control.cpp:849-883 | a regular turn changes exactly one row, and both counters go on counting the rows that are left |
| Eviction.EvictTracks | VeltiumCharger/main/group_control.cpp:849-884 | after a regular run the rows thrown out are in their evicted form, the others untouched, and the counters are the weight and the number of those left |
| Eviction.NoFallbackIff | VeltiumCharger/main/group_control.cpp:850-861 | the loop never falls back to row 0 if and only if the rows it can never throw out weigh nothing or leave a share of 6 A, told from the table before the loop |
| Eviction.EvictIsMinimal | VeltiumCharger/main/group_control.cpp:849-884 | a regular run throws out no more than it must: with the last and oldest of those thrown out back in, the others would not have 6 A each |
| Allocator.GeneralTracks | VeltiumCharger/main/group_control.cpp:660-885 | in a regular pass the counters are the weight and number of the chargers left, and the share is at least 6 A or nobody is left |
| Allocator.GeneralIsNewestFirst | VeltiumCharger/main/group_control.cpp:850-884 | on every table: whoever a pass leaves charging started no later than whoever it threw out |
| Allocator.GeneralIsMinimal | VeltiumCharger/main/group_control.cpp:809-884 | a regular pass throws nobody out if everybody can have 6 A; otherwise it stops as soon as those left can, so with newest first it is decided who goes |
| Allocator.RecalculatesEvery26th | VeltiumCharger/main/group_control.cpp:887-892 | over any sequence of passes, exactly the 26th, 52nd, ... pass that leaves more than 5 A unassigned asks for a recalculation |
| Allocator.CalculoRows | VeltiumCharger/main/group_control.cpp:467-508 | after CALCULO each row keeps its place, draws only if it was counted, and gets at most the share of the group and of its phase |
| Allocator.CalculoIsMaximal | VeltiumCharger/main/group_control.cpp:479-508 | every row that takes a setpoint and was not thrown out has the least of 32 A, the share of the group and the share of its phase, so one ampere more would break one of them; a three-phase charger for which that is under 6 A gets none |
| Allocator.CalculoWithinBudget | VeltiumCharger/main/group_control.cpp:467-508 | after a regular CALCULO pass the setpoints of chargers not thrown out in C2/B1/B2, weighted 1 or 3, sum to at most the budget |
| Allocator.BudgetIsConfiguredPower | VeltiumCharger/main/group_control.cpp:785-792 | without meter the budget times 230 V is at most the configured maximum power, whoever is silent |
| Budget.UnmeteredBudget | VeltiumCharger/main/group_control.cpp:785-792 | with everybody heard and no meter the budget is the whole amperes of the configured power at 230 V |
| Budget.OfflineBudget | VeltiumCharger/main/group_control.cpp:785-792 | with a configured meter that is offline, those of the contracted power |
| Budget.SilentBudget | VeltiumCharger/main/group_control.cpp:785-792 | while some chargers are silent, those of the part of the power that belongs to the others |
| Budget.ConsumoMeans | VeltiumCharger/main/group_control.cpp:795-808 | the consumption of the chargers is known to the ampere while it fits a byte |
| Budget.HouseholdLimit | VeltiumCharger/main/group_control.cpp:813-823 | when the meter counts the house alone, house and budget together are the contracted power, short of less than an ampere, and the budget is 0 when the house exceeds it |
| Budget.TotalLimit | VeltiumCharger/main/group_control.cpp:824-838 | when it counts house and chargers, they are within 230 W of it, 460 W below while power is fed in |
| Budget.MeteredBudget | VeltiumCharger/main/group_control.cpp:813-847 | the same of the budget of the group, in either mode of the meter |
| Budget.OverdrawnIff | VeltiumCharger/main/group_control.cpp:813-847 | the group asks for a recalculation exactly when house and chargers together exceed the contract |
| Budget.OverdrawnTotal | VeltiumCharger/main/group_control.cpp:824-847 | with a meter that counts both it does so only when it is exceeded, and always when by a whole ampere |
| Budget.UnknownMeter | VeltiumCharger/main/group_control.cpp:813-838 | in the other two settings of the meter the budget is 0 |
| Budget.ContractKept | VeltiumCharger/main/group_control.cpp:784-884 | after a regular CALCULO pass house and setpoints stay within the contract if the meter counts the house alone, exceed it by less than one ampere if it counts both, and nobody gets anything when the house alone exceeds it |
| Budget.TotalKeepsIff | VeltiumCharger/main/group_control.cpp:824-838 | in that mode house and budget stay within the contract if and only if power is fed in or the reading leaves, divided by 230, no greater remainder than the contracted power |
| Budget.ContractExceeded | VeltiumCharger/main/group_control.cpp:824-838 | there is a group that exceeds it: one charger, 2300 W contracted, 229 W in the house, and the charger is given 10 A |
| Counting.PreparedRow | VeltiumCharger/main/group_control.cpp:704-763 | a plugged-in charger is flagged as three-phase from the first current on a side phase on, an unplugged one starts anew, others are not touched |
| Counting.EvictedRow | VeltiumCharger/main/group_control.cpp:862-878 | a charger that was thrown out still counts with weight 1 and draws nothing |
| Counting.CurrentsOnPhases | VeltiumCharger/main/group_control.cpp:708-742 | the three currents of a charger lie on its main phase and the next two, going round |
| Counting.PhasesAddUp | VeltiumCharger/main/group_control.cpp:704-748 | on every circuit the three phases together carry what its chargers draw: no current is lost or counted twice |
| Counting.CircuitsAddUp | VeltiumCharger/main/group_control.cpp:696-748 | over all circuits that is the total of the group |
| Allocator.EvictedAreDenied | VeltiumCharger/main/coms/COAP_Nativo.cpp:392-402 | whoever was thrown out, by the loop or for want of 6 A on three phases, is denied permission by the reply computed from its row |
| Allocator.CalculoWithinCircuits | VeltiumCharger/main/group_control.cpp:770-782 | on every phase of every circuit the setpoints of all C2/B1/B2 chargers with that main phase sum to at most the circuit limit |
| Control.NobodyGone | VeltiumCharger/main/group_control.cpp:809-884 | a pass throws nobody out if and only if nobody counts or the first share is 6 A; then it only prepares the rows |
| Control.FirstFit | VeltiumCharger/main/group_control.cpp:561-615 | the charger admitted is the first that asks and fits, and everyone who asks before it does not fit |
| Control.AdmissionRows | VeltiumCharger/main/group_control.cpp:561-615 | an admitting pass changes, as far as the next count can see, only the admitted row |
| Control.RoomForOneMore | VeltiumCharger/main/group_control.cpp:566-594 | one more charger that passed the test on the group current leaves everybody 6 A in the next pass, which throws nobody out |
| Control.AdmittedPhase | VeltiumCharger/main/group_control.cpp:570-594 | one more user on a phase that passed its test leaves every user of that phase more than 6 A |
| Control.AdmittedChargerIsServed | VeltiumCharger/main/group_control.cpp:561-615 | after an admission, with measurements and parameters unchanged and no meter online, the next calculation throws nobody out and CALCULO gives the newcomer 6 to 32 A |
| Control.AdmissionHappens | VeltiumCharger/main/group_control.cpp:561-615 | there is such an admission: two single-phase chargers on 43 A, the second comes in |
| Resting.LeavesRestIff | VeltiumCharger/main/group_control.cpp:440-465 | a rested step leaves REPOSO if and only if some charger in B1 asks and the configured power gives 6 A, on three phases if it is known to use them |
| Resting.RestedRow | VeltiumCharger/main/group_control.cpp:441-459 | a rested step takes the setpoint of every row that does not ask, makes first in order those that can be let in, and changes nothing else |
| Resting.RestedChargerIsServed | VeltiumCharger/main/group_control.cpp:440-516 | the only charger plugged in, when it asks and power and circuit give 6 A, has 6 to 32 A and permission after the resting step and the computing step after it |
| Resting.RestedChargerHappens | VeltiumCharger/main/group_control.cpp:440-465 | there is such a group |
| Balancing.BalanceModes | VeltiumCharger/main/group_control.cpp:518-650 | a balancing step goes to rest if and only if nothing forces a calculation and nobody is plugged in, and stays if and only if nothing changed, group and phases are within their limits, nobody who asks fits and nobody wastes current; else it computes |
| Balancing.BalanceNotes | VeltiumCharger/main/group_control.cpp:518-556 | what the step remembers: new data are used up, and the number of chargers is noted unless a calculation was forced before |
| Balancing.ComputeModes | VeltiumCharger/main/group_control.cpp:510-516 | a computing step goes on to balancing if and only if somebody is left plugged in |
| Balancing.WithinIsNotOver | VeltiumCharger/main/group_control.cpp:545-553 | the nested overload tests are that measured currents and setpoints of every phase are within the limit of its circuit |
| Balancing.FitsMeans | VeltiumCharger/main/group_control.cpp:566-594 | a charger fits if and only if the budget gives everybody 6 A with it, and each phase it would use gives everybody 7 A |
| Balancing.AdmittedIsNewest | VeltiumCharger/main/group_control.cpp:577-586 | whoever comes in is in C2, one newer than the newest charging, and the only row to change |
| Balancing.WatchedWhileWasting | VeltiumCharger/main/group_control.cpp:621-640 | the timer of a charger that goes on leaving current unused adds up the time, however far apart the steps are |
| Balancing.NoticedAfterTenSeconds | VeltiumCharger/main/group_control.cpp:621-646 | it is noticed at the first step more than ten seconds after it began, and not before, and its unused current is noted |
| GroupTable.Find | VeltiumCharger/main/coms/Gestion_Grupo.cpp:67-74 | the first row with the name, or 255 exactly when no used row has it |
| GroupTable.CheckInGroup | VeltiumCharger/main/coms/Gestion_Grupo.cpp:67-74 | the search loop over the buffer finds the first row with the name |
| GroupTable.Added | VeltiumCharger/main/coms/Gestion_Grupo.cpp:43-64 | adding keeps names distinct, and does nothing for a known name or a full table |
| GroupTable.AddedRow | VeltiumCharger/main/coms/Gestion_Grupo.cpp:41-64 | a new row has its name and address, no measurement, setpoint or circuit, and is not connected; phase, order and flags are what the row held |
| GroupTable.AddToGroup | VeltiumCharger/main/coms/Gestion_Grupo.cpp:43-64 | the next free row becomes a fresh row for the name, everything else stays; refused exactly when the name is known or 40 rows are used |
| GroupTable.RemoveFromGroup | VeltiumCharger/main/coms/Gestion_Grupo.cpp:77-92 | later rows move up by one, the last used row is blanked, the order of the others is kept; refused exactly when the name is unknown |
| GroupTable.RemovedDistinct | VeltiumCharger/main/coms/Gestion_Grupo.cpp:77-92 | removing keeps names distinct |
| GroupTable.RemovedRows | VeltiumCharger/main/coms/Gestion_Grupo.cpp:77-92 | the other rows stay in order, the row that falls free has no name, rows past the group do not change |
| GroupTable.TurnedOnceTurns | VeltiumCharger/main/coms/Gestion_Grupo.cpp:136-141 | removing the first charger and adding it back is a rotation by one; it always finds its place |
| GroupTable.TurnOnce | VeltiumCharger/main/coms/COAP_Nativo.cpp:1300-1304 | one turn of any of the three rotation loops, with what that copy restores |
| GroupTable.TurnCompose | VeltiumCharger/main/coms/Gestion_Grupo.cpp:135-142 | rotations by one add up, in the fields each copy of the loop preserves |
| GroupTable.PutFirst | VeltiumCharger/main/coms/Gestion_Grupo.cpp:131-146 | with distinct names the master loop ends with this device first, in an exact rotation of the table; rows past the group stay |
| GroupCodec.Unpack | VeltiumCharger/main/coms/COAP_Nativo.cpp:1120 | circuit * 4 + phase loses nothing for circuits below 64 and phases up to 3 |
| GroupCodec.ThreeRoundTrip | VeltiumCharger/main/coms/COAP_Nativo.cpp:1122-1130 | three decimal digits read back as the value |
| GroupCodec.TextRoundTrip | VeltiumCharger/main/group_control.cpp:342-381 | whatever follows the text in its buffer, decoding returns the encoded entries in order |
| GroupCodec.FlashRoundTrip | VeltiumCharger/main/control.cpp:1670-1690 | the same for the packed form kept in flash |
| GroupCodec.TextFormat | VeltiumCharger/main/coms/COAP_Nativo.cpp:1107-1131 | the characters of the text: two digits of the count, and for every entry its name and the three digits of its value |
| GroupCodec.FlashFormat | VeltiumCharger/main/coms/Gestion_Grupo.cpp:96-112 | the characters of the flash image: the same count, and for every entry its name and one byte |
| GroupCodec.SendChargers | VeltiumCharger/main/coms/COAP_Nativo.cpp:1107-1131 | the buffer of 500 characters always holds exactly the encoding of the table |
| GroupCodec.StoreGroup | VeltiumCharger/main/coms/Gestion_Grupo.cpp:96-112 | the flash buffer of 362 bytes holds exactly the encoding of up to 40 chargers, and the terminator is written past the buffer if and only if there are 40 |
| GroupCodec.Terminate | VeltiumCharger/main/coms/Gestion_Grupo.cpp:149-153 | the terminator or the mark of an empty group leaves the encoded entries as they were |
| GroupCodec.Rebuilt | VeltiumCharger/main/group_control.cpp:369-407 | whatever the message, even with repeated names, the rebuilt table has distinct names and no more rows than entries |
| GroupCodec.RebuiltDescribes | VeltiumCharger/main/group_control.cpp:371-407 | entries with distinct names become the rows in order; new chargers start blank, known ones keep state, currents, delta and setpoint |
| GroupCodec.RebuildTable | VeltiumCharger/main/control.cpp:1677-1706 | the loop shared by both readers rebuilds the table that way |
| GroupCodec.NewGroup | VeltiumCharger/main/group_control.cpp:342-407 | receiving the text rebuilds the table from its entries |
| GroupCodec.LoadGroup | VeltiumCharger/main/control.cpp:1644-1706 | loading from flash rebuilds the table from its entries |
| GroupCodec.RebuiltIsSame | VeltiumCharger/main/group_control.cpp:371-407 | rebuilding from the packed form of a group gives the same names, phases and circuits |
| GroupCodec.TextGroupRoundTrip | VeltiumCharger/main/coms/COAP_Nativo.cpp:1107-1131 | what one charger sends, another rebuilds: same names, phases and circuits for up to 40 chargers, known ones keep their measurements |
| GroupCodec.FlashGroupRoundTrip | VeltiumCharger/main/coms/Gestion_Grupo.cpp:96-112 | the same through the flash buffer |
| GroupRuns.EvictionSurvivesData | VeltiumCharger/main/group_control.cpp:93-118 | after an eviction the next DATA message leaves permission denied if and only if the row has no setpoint, or the charger neither asks nor reports a state other than B1 or C1 |
| GroupRuns.EvictionUndoneByData | VeltiumCharger/main/group_control.cpp:98-118 | after every regular pass, a DATA message leaves a charger that the pass threw out denied if and only if nobody was left, or its phase has nothing to give, or it neither asks nor reports a state other than B1 or C1 |
| GroupRuns.ThrowingOutHappens | VeltiumCharger/main/group_control.cpp:849-884 | there is such an eviction: two chargers on 8 A, the newer one is thrown out and its phase has current |
| GroupRuns.EvictionUndoneHappens | VeltiumCharger/main/group_control.cpp:98-118 | in that group every message of the one thrown out that still shows C2 gives it permission again |
| GroupRuns.UpdatedRow | VeltiumCharger/main/group_control.cpp:93-118 | a DATA message always sets the connected and the request flag; state and currents are taken over exactly unless the sender asks from B1 or C2 or reports B1 to a row in C2; the rest of the row stays |
| GroupRuns.AdmissionSurvivesData | VeltiumCharger/main/group_control.cpp:98-118 | an admitted charger stays in C2 if and only if its message asks or reports B1 or C2, and may charge if and only if it has a setpoint and the message is not C1 without a request |
| GroupRuns.TickIsStep | VeltiumCharger/main/group_control.cpp:438-655 | a control step acts on the rows in use according to the state |
| GroupRuns.ReportedRow | VeltiumCharger/main/group_control.cpp:93-118 | a DATA message changes the row of its sender and nothing else |
| GroupRuns.UnknownReport | VeltiumCharger/main/group_control.cpp:93-97 | a DATA message of a charger that is not in the table changes nothing |
| GroupRuns.NewTableRows | VeltiumCharger/main/coms/Gestion_Grupo.cpp:131-146 | a new group that lists this device becomes the table in the order of the message, going round from this device if it is master, each row as its entry describes it |
| GroupRuns.DeletedRows | VeltiumCharger/main/coms/Gestion_Grupo.cpp:176-187 | deleting the group leaves no name and no circuit in its rows |
| GroupRuns.RotatedIsTurned | VeltiumCharger/main/coms/Gestion_Grupo.cpp:135-142 | the loop that restores whole rows computes exactly the rotation of the sequence |
| GroupRuns.StepTame | VeltiumCharger/main/group_control.cpp:438-655 | every control step keeps names and places, and setpoints within 0..32 |
| GroupRuns.ApplyKeeps | VeltiumCharger/main/group_control.cpp:438-655 | every event keeps: setpoints within 0..32, names distinct, at most 40 chargers |
| GroupRuns.RunKeepsInvariant | VeltiumCharger/main/group_control.cpp:438-655 | under every interleaving of control steps, DATA messages, new groups and deletions: setpoints within 0..32, names distinct, at most 40 chargers |
| GroupRuns.WellPlacedRunsAreSafe | VeltiumCharger/main/group_control.cpp:479-486 | if messages name existing circuits and phases, no step of any run indexes a circuit or phase that does not exist |
| Controller.GroupController.CountRow | VeltiumCharger/main/group_control.cpp:699-739 | a counted charger adds to exactly the phases it uses |
| Controller.GroupController.CountRows | VeltiumCharger/main/group_control.cpp:675-763 | the counters in place are the sums over the prepared table, per phase and in total, with their widths |
| Controller.GroupController.SharePhases | VeltiumCharger/main/group_control.cpp:770-782 | every phase gets its share, its total in amperes and what the setpoints leave of the limit |
| Controller.GroupController.Budget | VeltiumCharger/main/group_control.cpp:784-847 | the budget from the parameters, or from the meter in either of its modes, and whether it is exceeded |
| Controller.GroupController.EvictOne | VeltiumCharger/main/group_control.cpp:850-878 | one turn of the loop in place is one turn of the specification, counters wrapping as bytes |
| Controller.GroupController.EvictNewest | VeltiumCharger/main/group_control.cpp:849-884 | the loop in place computes the specified loop and ends |
| Controller.GroupController.CalculoGeneral | VeltiumCharger/main/group_control.cpp:660-910 | the whole calculation in place refines the specified pass |
| Controller.GroupController.StepReposo | VeltiumCharger/main/group_control.cpp:440-465 | REPOSO in place refines the specified resting step |
| Controller.GroupController.AssignSetpoint | VeltiumCharger/main/group_control.cpp:479-505 | one row gets the smaller of phase share and group share, at most 32, or is thrown out when three-phase under 6 A |
| Controller.GroupController.StepCalculo | VeltiumCharger/main/group_control.cpp:467-516 | CALCULO in place refines the specified computing step |
| Controller.GroupController.PhasesOver | VeltiumCharger/main/group_control.cpp:545-553 | the overload flag is set exactly when some phase of some circuit is over its limit |
| Controller.GroupController.HasRoom | VeltiumCharger/main/group_control.cpp:566-594 | the nested tests decide exactly whether a charger fits |
| Controller.GroupController.Admit | VeltiumCharger/main/group_control.cpp:577-586 | the admitted charger becomes C2 and the newest of the group |
| Controller.GroupController.LookAtRequests | VeltiumCharger/main/group_control.cpp:561-615 | the loop admits the first charger that fits and refuses those before it |
| Controller.GroupController.WatchSpare | VeltiumCharger/main/group_control.cpp:621-646 | chargers with more than 2 A unused for over ten seconds ask for a recalculation, rows as specified |
| Controller.GroupController.StepEquilibrado | VeltiumCharger/main/group_control.cpp:518-650 | EQUILIBRADO in place refines the specified balancing step |
| Controller.GroupController.NewData | VeltiumCharger/main/group_control.cpp:93-118 | a DATA message changes exactly the row of its sender, and the answer is that of the new row; an unknown sender changes nothing |
| Handout.RaisedOnce | VeltiumCharger/main/group_control.cpp:938-960 | an ampere given to one row adds its weight to what was handed out |
| Handout.CanTakeIff | VeltiumCharger/main/group_control.cpp:934-954 | who can take an ampere: plugged in, no spare of its own, below 32 A, and at least 2 A spare on its phase, or 3 A to give and at least 2 A on all three |
| Handout.PhasesGave | VeltiumCharger/main/group_control.cpp:938-960 | what the phases of all circuits gave is what was handed out |
| Handout.AfterConserves | VeltiumCharger/main/group_control.cpp:933-977 | after every number of iterations: amperes are conserved overall and on every phase, only eligible setpoints have risen, to at most 32, and no phase was taken below 1 |
| Handout.NextInRound | VeltiumCharger/main/group_control.cpp:967-976 | a round gives at most 120 A, so the byte tells a round that gave nothing from one that gave something; each iteration makes progress, ends the loop or is stuck |
| Handout.Settles | VeltiumCharger/main/group_control.cpp:933-977 | every run of the loop stops or gets stuck |
| Handout.StuckForEver | VeltiumCharger/main/group_control.cpp:967-976 | with more than 255 A left that nobody can take, the guard holds and the break is missed after every number of iterations |
| Handout.EndsIff | VeltiumCharger/main/group_control.cpp:933-977 | every run comes to a point where nothing is left or nobody can take it, and the loop ends if and only if at most 255 A are left then |
| Handout.EndsByAmount | VeltiumCharger/main/group_control.cpp:931-977 | told before the call: started with at most 255 A the loop ends, and with more than 255 A above what all eligible chargers can take it never does |
| Handout.HasAmpere | VeltiumCharger/main/group_control.cpp:934-954 | the nested tests decide exactly whether a row can take an ampere from every phase it uses |
| Handout.Offer | VeltiumCharger/main/group_control.cpp:934-965 | in place, a row takes an ampere exactly when it can, from every phase it uses |
| Handout.HandOut | VeltiumCharger/main/group_control.cpp:930-977 | the loop in place, whenever it ends, ends with the values of the specified iterations: amperes conserved, at most 255 A left, and something left only if nobody could take it |
| Handout.HandOutWithinByte | VeltiumCharger/main/group_control.cpp:930-977 | started with at most 255 A the loop in place ends, conserves amperes, and leaves something only if nobody could take it |
| Handout.EndlessHandout | VeltiumCharger/main/group_control.cpp:932-976 | for every amount above 255 there is a group on which no number of iterations ends the loop |
| Uart.SendToPSOC5 | VeltiumCharger/main/helpers.cpp:161-173 | the bytes written are the encoded frame and one filler byte, or nothing during an update |
| Uart.WireFormat | VeltiumCharger/main/helpers.cpp:161-173 | the bytes of a frame: a colon, the handle high byte first, the length modulo 256, the payload |
| Uart.FeedConcat | VeltiumCharger/main/control.cpp:451-524 | parsing is the same wherever the stream is cut |
| Uart.FrameIsParsed | VeltiumCharger/main/helpers.cpp:161-173 | the parser takes every encoded frame, 1 to 256 bytes, back out |
| Uart.FrameIsParsedIff | VeltiumCharger/main/control.cpp:488-494 | of all lengths the encoder takes, exactly 1 to 256 bytes come back out as that frame |
| Uart.StreamIsParsed | VeltiumCharger/main/control.cpp:451-524 | frames with any filler without a header byte between them come out in order and nothing else does |
| Uart.PolledStream | VeltiumCharger/main/control.cpp:451-524 | after any part of the stream, what has been handed on and what is still to come are together exactly the frames |
| Uart.Receiver.Timeout | VeltiumCharger/main/control.cpp:457-463 | a timeout drops the block under way and keeps the write index in bounds |
| Uart.Receiver.ReceiveBlock | VeltiumCharger/main/control.cpp:498-518 | the block loop is the byte-at-a-time parser, and never writes outside the 256 bytes |
| Uart.Receiver.Poll | VeltiumCharger/main/control.cpp:452-523 | one poll refines the parser on the bytes it uses, and stalls only for want of the second type byte |
| Uart.Receiver.Receive | VeltiumCharger/main/control.cpp:451-525 | any sequence of polls without timeout has parsed a prefix of all that came in |
| Uart.Receiver.ReceiveStream | VeltiumCharger/main/control.cpp:445-526 | a stream of frames cut in any way into arrivals is handed on as exactly those handles and payloads in order |
| Tasks.ToFront | SDK/esp-idf/tools/idf.py:583-604 | popping a task and putting it in front keeps the members of the list |
| Tasks.PulledAhead | SDK/esp-idf/tools/idf.py:579-605 | all that a turn moves ends up ahead of every other name, and nothing else does |
| Repeats.PulledNamed | SDK/esp-idf/tools/idf.py:574-605 | a turn that moves a name turns the tasks of that name by one, the last coming first, however often the name is listed |
| Repeats.VisitTurns | SDK/esp-idf/tools/idf.py:574-605 | the waiting tasks of a requested name are always the requested ones turned once for each pull |
| Repeats.TurnKeepsOnce | SDK/esp-idf/tools/idf.py:576-613 | no name is found not ready twice: what it needs then stays ahead of it until it is queued |
| Repeats.PullsAtMost | SDK/esp-idf/tools/idf.py:579-605 | a name is pulled at most once by each command that lists it |
| Repeats.VisitKeepsUntouched | SDK/esp-idf/tools/idf.py:579-605 | a name that nothing requested before it leads to is not pulled |
| Repeats.PopKeepsInTurn | SDK/esp-idf/tools/idf.py:607-613 | a name that was never pulled is queued after all that was requested before it |
| TaskOrder.PullDependencies | SDK/esp-idf/tools/idf.py:579-599 | the loop over dependencies moves or adds what is missing and notices whether it did |
| TaskOrder.PullOrderDependencies | SDK/esp-idf/tools/idf.py:602-605 | the loop over order-dependencies moves those that wait in the list and adds none |
| TaskOrder.QueueNext | SDK/esp-idf/tools/idf.py:607-613 | queueing a ready task keeps all promises about the queue |
| TaskOrder.TurnProgress | SDK/esp-idf/tools/idf.py:572-613 | each turn has fewer names left to add, or a shorter list, or a task of lower rank in front |
| TaskOrder.OrderTasks | SDK/esp-idf/tools/idf.py:570-613 | on acyclic tasks the loop ends, queues each name once, queues the requests and what they depend on and no others, puts every dependency first, queues no task while an order-dependency of it waits, and of a repeated name the first request turned back once for each pull |
| TaskOrder.QueueIsLeast | SDK/esp-idf/tools/idf.py:579-599 | the queued names are the least set that contains the requests and, with a task, its dependencies |
| TaskOrder.TurnKeepsJustified | SDK/esp-idf/tools/idf.py:579-613 | at every turn each waiting or queued name was requested or is a dependency of another one |
| TaskOrder.PulledIffNeeded | SDK/esp-idf/tools/idf.py:579-605 | a requested name is pulled if and only if something requested before it leads to it through dependencies or requested order-dependencies |
| TaskOrder.RequestedOrderDependenciesFirst | SDK/esp-idf/tools/idf.py:601-605 | order-dependencies that were requested come before their dependent |
| TaskOrder.FirstRunsIff | SDK/esp-idf/tools/idf.py:527-535 | the first request of a name is executed, as the tool announces, if and only if the number of pulls is a multiple of the number of requests |
| TaskOrder.FirstRuns | SDK/esp-idf/tools/idf.py:527-535 | it is executed whenever nothing requested before it leads to it |
| TaskOrder.AnnouncementIff | SDK/esp-idf/tools/idf.py:527-535 | for a repeated name that at most one command lists, the announcement is true if and only if nothing requested before leads to it; otherwise the last request is executed |
| TaskOrder.LaterRepeatRuns | SDK/esp-idf/tools/idf.py:570-613 | the loop itself, on a task and then twice one that it depends on, executes the second of these and not the first |
| RecordSync.Uploader.HandleRecord | VeltiumCharger/main/coms/FirebaseClient.cpp:1523-1574 | each advance lowers lap * 200 + index by one, a failed write is retried exactly when the write before it succeeded, and a normal end has stored all it had to |
| RecordSync.Uploader.MoveOn | VeltiumCharger/main/coms/FirebaseClient.cpp:1530-1560 | the three stopping tests are right: each leaves nothing newer than the synchronised record unstored but the page being overwritten |
| RecordSync.Uploader.StepBack | VeltiumCharger/main/coms/FirebaseClient.cpp:1537-1551 | one record back, over the end of the ring when it has gone round |
| RecordSync.Uploader.CompleteAtPage | VeltiumCharger/main/coms/FirebaseClient.cpp:1553-1560 | stepping into the page of the newest record ends a complete walk |
| RecordSync.WalkedDistinct | VeltiumCharger/main/coms/FirebaseClient.cpp:1537-1555 | no slot is requested twice |
| RecordSync.Synchronise | VeltiumCharger/main/coms/FirebaseClient.cpp:1523-1574 | against any database results at most 200 records are requested, newest first, none that was never written, is being overwritten or comes after the one that follows the synchronised record; a normal end has stored every record after the synchronised one except in the page being overwritten, and if the database always answers that end is reached |
| Schedule.CreateMatrix | VeltiumCharger/main/coms/FirebaseClient.cpp:1906-1940 | exactly the cells of the enabled days get the power, an inactive program changes nothing, bytes wrap as in the code |
| Schedule.PaintDay | VeltiumCharger/main/coms/FirebaseClient.cpp:1927-1933 | the hours of one day, one day later in the matrix |
| Schedule.WritesIffCovers | VeltiumCharger/main/coms/FirebaseClient.cpp:1922-1935 | for hours 0..23 a cell is written if and only if one day earlier its hour lies between start and end of an enabled day, or, when the end is not after the start, from the start of an enabled day on or before the end on the day after one |
| Schedule.BuildSchedule | VeltiumCharger/main/coms/FirebaseClient.cpp:683-702 | each of the 168 cells holds the power of the last active program that covers it, else 0 |
| Schedule.CellsWritten | VeltiumCharger/main/coms/FirebaseClient.cpp:1922-1935 | one program writes (end - start + 23) % 24 + 1 distinct cells for each enabled day |
| Schedule.DeltaMeans | VeltiumCharger/main/coms/FirebaseClient.cpp:1952-1958 | for hours 0..23 the length is the hours from start to end, a whole day when they are equal |
| Schedule.DaysAreBits | VeltiumCharger/main/coms/FirebaseClient.cpp:1917-1923 | the byte of the days is the sum of the powers of two of its enabled days |
| Schedule.PowerIsHundreds | VeltiumCharger/main/coms/FirebaseClient.cpp:1913-1914 | the power of a cell is the two bytes of the program, high byte first, in whole hundreds of watts while they fit a byte |
| Feistel.Encipher | VeltiumCharger/main/ble/blowfish.cpp:352-379 | the loop in the code is the cipher over the subkeys in order, for any round function |
| Feistel.Decipher | VeltiumCharger/main/ble/blowfish.cpp:382-411 | the backward loop is the cipher over the reversed subkeys |
| Feistel.RoundsUnwind | VeltiumCharger/main/ble/blowfish.cpp:391-399 | the rounds unwind one by one |
| Feistel.CipherUndone | VeltiumCharger/main/ble/blowfish.cpp:352-411 | deciphering undoes enciphering for every round function and all subkeys |
| Feistel.DecipherUndone | VeltiumCharger/main/ble/blowfish.cpp:352-411 | enciphering undoes deciphering |
| Feistel.CipherIsHalves | VeltiumCharger/main/ble/blowfish.cpp:352-379 | the cipher is the recurrence of the design over one row of half blocks: each is the one before the last, changed by the round function of the last and by the next subkey |
| Blowfish.FOfBytes | VeltiumCharger/main/ble/blowfish.cpp:333-349 | the round function sends each byte of the word, from the highest, through the S-box of its place, and combines them by sum, exclusive or and sum |
| Blowfish.BlockIsHalves | VeltiumCharger/main/ble/dev_auth.cpp:97-104 | the block written is what that recurrence of eighteen half blocks gives |
| Blowfish.UnpackPack | VeltiumCharger/main/ble/dev_auth.cpp:22-95 | reading the words of a written block gives the words, in either byte order |
| Blowfish.PackUnpack | VeltiumCharger/main/ble/dev_auth.cpp:22-95 | writing the words of a block gives the block |
| Blowfish.EncryptVec | VeltiumCharger/main/ble/dev_auth.cpp:97-104 | the output holds the encrypted block and nothing else changes, also when input and output are one buffer |
| Blowfish.DecryptVec | VeltiumCharger/main/ble/dev_auth.cpp:106-113 | the same for decryption |
| Blowfish.BlockRoundTrip | VeltiumCharger/main/ble/dev_auth.cpp:97-113 | for every context, every block and either byte order, decryption undoes encryption and encryption undoes decryption |
| Crc.ComputeCrc32 | VeltiumCharger/main/ble/serverble.cpp:89-119 | the nested loop computes the register machine, its complement and its byte swap |
| Crc.AbsorbByte | VeltiumCharger/main/ble/serverble.cpp:97-109 | eight bit steps absorb one byte |
| Crc.BitsAbsorb | VeltiumCharger/main/ble/serverble.cpp:99-109 | taking the bits one at a time is the same as adding the byte first and dividing after |
| Crc.StepInjective | VeltiumCharger/main/ble/serverble.cpp:100-106 | a bit step is invertible in the register |
| Crc.FinishedOneToOne | VeltiumCharger/main/ble/serverble.cpp:111-118 | the final complement and byte swap lose nothing |
| CrcCheck.CheckValue | VeltiumCharger/main/ble/serverble.cpp:89-119 | from FFFFFFFF the nine digits give the check value CBF43926 of CRC-32 with its bytes turned round, which fixes polynomial, shift, complement and byte order |
| Registers.WindowDetected | VeltiumCharger/main/ble/serverble.cpp:96-110 | for any linear, invertible register machine a difference confined to four consecutive symbols changes the register |
| Crc.BurstDetected | VeltiumCharger/main/ble/serverble.cpp:89-119 | payloads of any equal length that differ only within four consecutive bytes never have the same CRC |
| Crc.SingleByteDetected | VeltiumCharger/main/ble/serverble.cpp:89-119 | in particular payloads that differ in exactly one byte |
| Bootloader.SendsCarry | VeltiumCharger/main/cybtldr/cybtldr_api.cpp:168-210 | the send pieces are the row up to where they stop |
| Bootloader.SendsFit | VeltiumCharger/main/cybtldr/cybtldr_api.cpp:168-178 | each send piece has 1 to 121 bytes |
| Bootloader.SendsFull | VeltiumCharger/main/cybtldr/cybtldr_api.cpp:158-178 | every send piece but the last has 121 bytes, and pieces are cut off exactly while more than 113 bytes are left |
| Bootloader.RowIsWhole | VeltiumCharger/main/cybtldr/cybtldr_api.cpp:214-248 | send pieces of at most 121 bytes and the final piece of at most 113 concatenate to the whole row |
| Bootloader.AllRowsCarried | VeltiumCharger/main/cybtldr/cybtldr_api2.cpp:122-146 | the commands of a file carry every data row, whole and in order |
| Bootloader.FileInOrder | VeltiumCharger/main/cybtldr/cybtldr_api2.cpp:25-75 | each row of the file gets its one command of the action, also when erasing, and each vector is set, in the order of the file |
| Bootloader.LinesMean | VeltiumCharger/main/cybtldr/cybtldr_api2.cpp:122-146 | the loop over the file succeeds if and only if every line is readable, nobody asks to stop and every command is accepted; up to then it has sent the beginning of the commands of the file |
| Bootloader.RunSucceedsIff | VeltiumCharger/main/cybtldr/cybtldr_api2.cpp:76-157 | a run succeeds if and only if the file opens and is readable, nobody asks to stop, and the board accepts every command up to the verification |
| Bootloader.RunDoesAll | VeltiumCharger/main/cybtldr/cybtldr_api2.cpp:76-157 | a successful run did: enter, metadata, every row in order, a successful application verify unless erasing, exit |
| Bootloader.RunInOrder | VeltiumCharger/main/cybtldr/cybtldr_api2.cpp:76-157 | whatever happens, what was sent is the beginning of that list with at most an exit after it |
| Bootloader.Session.SendData | VeltiumCharger/main/cybtldr/cybtldr_api.cpp:158-212 | the pieces are sent one after the other up to the first that fails |
| Bootloader.Session.ProcessRow | VeltiumCharger/main/cybtldr/cybtldr_api2.cpp:25-58 | the commands of the row are sent up to the first that fails |
| Bootloader.Session.ProcessLine | VeltiumCharger/main/cybtldr/cybtldr_api2.cpp:130-141 | the commands of the line are sent up to the first that fails; an unreadable line sends nothing and fails |
| Bootloader.Session.ProcessLines | VeltiumCharger/main/cybtldr/cybtldr_api2.cpp:122-146 | the loop in place is the specified one, and counts the data rows |
| Bootloader.Session.Close | VeltiumCharger/main/cybtldr/cybtldr_api2.cpp:147-152 | after success a verify and an exit; after failure an exit unless the link is down |
| Bootloader.Session.RunAction | VeltiumCharger/main/cybtldr/cybtldr_api2.cpp:76-157 | the driver in place is the specified run: it succeeds under exactly the condition above and has then sent the whole plan, all of it accepted |

## Left out

- GroupCodec.NewGroup: at most 40 announced chargers and data as long as announced; otherwise the program writes past its table or reads past the message.
- GroupCodec.LoadGroup: likewise for the flash image.
- The first part of `Reparto_Delta`, which lowers setpoints to the measured current before the handout.
- Allocator.CalculoWithinCircuits: bounds the setpoints of chargers on their main phase only, because the code consults no other phase of a three-phase charger; nothing is claimed of its side phases.
- GroupCodec.FlashGroupRoundTrip: the image is the buffer itself; storing it through JSON and SPIFFS as a C string, which would stop at a zero byte, is not modelled.
- RecordSync.Synchronise: the note that an unreadable older record leaves in the database is not modelled; the walk just ends as abandoned.
- BLE, Wi-Fi, Ethernet, HTTP, Firebase requests, CoAP, JSON and SPIFFS: only decoded fields and results of calls appear.
- FreeRTOS tasks, delays and timers: time is a parameter of the steps, and steps interleave freely.
- `Period` and the disconnection of silent chargers by time: only messages and new groups change a row's connected flag here.
- `MasterPanicTask`: the program never creates it.
- Rows of circuits numbered above the number of circuits: the program would read counters it did not reset; steps on such tables are not legal in a run.
- `GroupActive`, `MasterIP` and the storing of parameters: they do not take part in the election.
- Commands that add or remove single chargers from the phone application: covered by the table operations they use.
- `procesar_bloque` and the Firebase read and write helpers: field copying.
- `Update_Status_Coms`, the encryption of datagrams, handle tables: finite or easy members.
- Blowfish tables and key schedule: subkeys and S-boxes are arbitrary.
- Parsing of firmware files, command builders and checksums of the bootloader: kept as the parsed lines and the status of each command.
- Two-character buffers handed to `atoi` without terminator: the intended decimal field is read.
- Aliases, argument checks and the execution of the queued tasks in `idf.py`.
- LEDs, web pages, GPIO, debug output and demo modes.
