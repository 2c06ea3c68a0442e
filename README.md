# ElectroTechStore in Dafny

ElectroTechStore is a small Java program that simulates an electronics shop. It has two
kinds of device, a phone (`Telefono`, identified by its model) and a laptop
(`ComputadoraPortatil`, identified by its brand). Each device can be switched on and off
through the `DispositivoElectronico` interface. The shop keeps its devices on a *stand*
(a list):

- `validarStand` sorts the stand into the devices that are on and the ones that are off;
- `guardarDispositivosCSV` writes the stand to a CSV file, one header line and then one
  `Kind,name,state` record per device;
- `cargarDispositivosCSV` reads such a file back, skipping every line it cannot use.

This project models that core and proves its properties:

- `Devices`: both device classes as one class `Device`. It has a kind tag (`Phone` for
  `Telefono`, `Laptop` for `ComputadoraPortatil`), a fixed name (`modelo` / `marca`) and
  a mutable power flag (`encendido`). It also has `DeviceList`, the `ArrayList` the
  device lists live in. `Info()` is what a device shows at a moment (kind, name, on/off),
  as a value.
- `Stand`: `validarStand` as the method `ValidateStand`. It loops over the stand and
  appends to the caller's two lists in place. It is specified by the filter function
  `Select`, about which the partition lemmas are proved.
- `JavaText`: the parts of the Java library the codec relies on:
  - `String.split(",")`: cut at every comma, drop trailing empty strings, and a
    comma-free string stays whole;
  - `equalsIgnoreCase` and `Boolean.parseBoolean`;
  - the text a `boolean` becomes under concatenation.
- `Csv`: the file as a sequence of lines. `Encode` and `Decode` specify the writer loop
  `SaveLines` and the reader loop `LoadLines`. Lemmas prove the record format, the rules
  for skipping lines, the reading order, and the round trip for names without commas.
- `Store`: the fixed scenario of `main`, without its console output:
  - four devices, with the first phone and the second laptop switched on;
  - sorted into on and off;
  - written out and read back.

  `StoreScenario` holds it for any four comma-free names. `RunStore` is the instance with
  the names `main` uses.
- `Seqs`: four small facts about sequence slices, used by the proofs.

The scenario uses `main`'s own names (ElectroTechStore.java:99-102).

## Model

| member | source | states |
|---|---|---|
| Devices.Device.constructor | ElectroTechStore.java:39-42 | a new phone (and likewise a new laptop, lines 72-75) has exactly the kind and name it was given and is switched off |
| Devices.Device.TurnOn | ElectroTechStore.java:45-47 | `encender` leaves the device on whatever its previous state, as `IsOn` (`validarEstado`, lines 54-57 and 87-90, which returns the flag) then reports, with kind and name unchanged; so a second call changes nothing (idempotent) |
| Devices.Device.TurnOff | ElectroTechStore.java:50-52 | `apagar` leaves the device off whatever its previous state, with kind and name unchanged; so a second call changes nothing (idempotent) |
| Devices.InfosAt | ElectroTechStore.java:172-178 | what the writer reads of the device at index `i` (its class, its name and `validarEstado()`) is what that device shows |
| Devices.DeviceList.constructor | ElectroTechStore.java:121-122 | `new ArrayList<>()` (also line 188) starts empty |
| Devices.DeviceList.Add | ElectroTechStore.java:161 | `List.add` appends exactly the given device at the end and changes nothing else of the list |
| Stand.ValidateStand | ElectroTechStore.java:158-166 | after the call, `encendidos` is its old contents followed by the on devices of the stand in stand order, and `apagados` its old contents followed by the off devices; when both arguments are one list, it receives the whole stand; the stand and the devices are not modified |
| Stand.SelectCoversStand | ElectroTechStore.java:158-166 | the on part and the off part together hold each device of the stand exactly as often as the stand does (a permutation split) |
| Stand.SelectSizes | ElectroTechStore.java:158-166 | the two parts together are exactly as long as the stand: each device goes to exactly one side |
| Stand.SelectMatchesState | ElectroTechStore.java:160-164 | everything in the on part is on and everything in the off part is off |
| Stand.SelectDisjoint | ElectroTechStore.java:160-164 | no device goes to both parts |
| Stand.SelectIsSubsequence | ElectroTechStore.java:159-165 | each part is a subsequence of the stand: relative order is preserved |
| JavaText.DropTrailingEmpty | ElectroTechStore.java:192 | the result is a prefix of the pieces that does not end in an empty string, and only empty pieces were removed |
| JavaText.PiecesCommaFree | ElectroTechStore.java:192 | no piece after cutting at the commas contains a comma |
| JavaText.JoinPieces | ElectroTechStore.java:192 | cutting at every comma loses nothing: joining the pieces with commas gives the line back |
| JavaText.PiecesJoin | ElectroTechStore.java:192 | cutting comma-free fields joined by commas gives back exactly those fields |
| JavaText.SplitOfJoin | ElectroTechStore.java:192 | `split(",")` of two or more comma-free fields joined by commas gives the fields without their trailing empty ones |
| JavaText.SplitJoin | ElectroTechStore.java:192 | `split(",")` gives back two or more comma-free fields joined by commas when the last field is not empty |
| JavaText.ParseBooleanSpellings | ElectroTechStore.java:196 | `Boolean.parseBoolean` is true exactly for the sixteen upper/lower-case spellings of "true" and false for every other text |
| JavaText.BooleanToString | ElectroTechStore.java:175 | a state is written as a non-empty, comma-free word that `parseBoolean` reads back as the same state |
| Csv.ParseKindInvertsTag | ElectroTechStore.java:197-203 | the reader recognises exactly the two class names the writer prints, each as its own kind |
| Csv.EncodeLineText | ElectroTechStore.java:173-178 | a record is `Telefono,` or `ComputadoraPortatil,`, then the name, a comma and `true` or `false` |
| Csv.EncodeRecordsLines | ElectroTechStore.java:172-180 | record `i` is the line for device `i`: one line per device, in list order |
| Csv.SaveLines | ElectroTechStore.java:171-180 | the writer prints the header `Tipo,Modelo/Marca,Estado` and then the record of each device of the stand, in stand order |
| Csv.DecodeAppend | ElectroTechStore.java:191-211 | lines are read independently: a file cut anywhere decodes to the devices of the first part followed by those of the second |
| Csv.MalformedLineSkipped | ElectroTechStore.java:192-210 | a line whose split has other than three parts, or whose first part is neither class name, adds no device and does not affect the devices of the other lines |
| Csv.AcceptedLineKept | ElectroTechStore.java:192-210 | a line with three parts and a known class name adds exactly one device at its position, with that kind, the second part as its name, and on exactly when the third part equals "true" ignoring case |
| Csv.HeaderSkipped | ElectroTechStore.java:192-203 | the header line splits into exactly `Tipo`, `Modelo/Marca` and `Estado`, but "Tipo" is no class, so it is skipped |
| Csv.TrailingCommaAfterNameSkipped | ElectroTechStore.java:192-193 | `Kind,name,` has fewer than three parts once the trailing empty piece is dropped, and is skipped |
| Csv.TrailingCommaAfterStateKept | ElectroTechStore.java:192-196 | `Kind,name,state,` splits into exactly `Kind`, `name` and `state`, and is read like `Kind,name,state` |
| Csv.DecodeOrder | ElectroTechStore.java:191-211 | the device of each accepted line comes right after the devices of the lines before it |
| Csv.EncodeLineFields | ElectroTechStore.java:175 | a record whose name has no comma splits back into its three fields |
| Csv.DecodeEncodeLine | ElectroTechStore.java:192-202 | a record whose name has no comma reads back as the device it was written from |
| Csv.DecodeRecords | ElectroTechStore.java:172-210 | the records alone, without the header, read back as the devices they were written for |
| Csv.RoundTrip | ElectroTechStore.java:171-211 | reading a written file gives back the same devices (same length, and the same kind, name and state at every index) when no name contains a comma; lines are taken to be exactly what was printed (see Left out on line terminators) |
| Csv.ReadRecord | ElectroTechStore.java:192-209 | one pass of the reader's loop body builds a new device exactly when the line is not skipped, and that device shows what the line decodes to |
| Csv.LoadStep | ElectroTechStore.java:191-210 | one iteration of the reader's loop appends the device of the line, if it has one, as a new object, and keeps the devices already read |
| Csv.LoadLines | ElectroTechStore.java:188-215 | the reader builds, in line order, devices that show exactly the decoded contents of the file; each is a new object and no two are the same |
| Store.StandRoundTrip | ElectroTechStore.java:136-139 | the stand of `main` survives saving and loading unchanged |
| Store.MainStand | ElectroTechStore.java:99-113 | the stand of `main` holds a phone that is on, a phone that is off, a laptop that is off and a laptop that is on, in that order |
| Store.SortMainStand | ElectroTechStore.java:121-123 | `validarStand` on that stand puts the first phone and the second laptop in `encendidos` and the other two in `apagados` |
| Store.SaveAndReload | ElectroTechStore.java:136-139 | saving that stand writes the header and its four records, and loading them gives the same four devices |
| Store.StoreScenario | ElectroTechStore.java:97-144 | for any four comma-free names, the on list, the off list, the written lines and the reloaded devices are those of `main` |
| Store.StandLines | ElectroTechStore.java:171-179 | the file written for the stand of `main` is the header followed by `Telefono,<phone1>,true`, `Telefono,<phone2>,false`, `ComputadoraPortatil,<laptop1>,false` and `ComputadoraPortatil,<laptop2>,true` |
| Store.MainLines | ElectroTechStore.java:136 | with `main`'s names, those five lines are exactly `Tipo,Modelo/Marca,Estado`, `Telefono,iPhone X,true`, `Telefono,Samsung Galaxy S21,false`, `ComputadoraPortatil,Dell XPS 13,false` and `ComputadoraPortatil,HP Spectre x360,true` |
| Store.RunStore | ElectroTechStore.java:97-144 | with `main`'s own names: on = [iPhone X, HP Spectre x360], off = [Samsung Galaxy S21, Dell XPS 13], the file is exactly those five lines, and the reloaded stand equals the original |

## Left out

- File handling is not modelled: the writers and readers, try-with-resources and the
  `IOException` paths that print a stack trace (lines 170, 181-183, 189, 212-214). The
  file is the sequence of its lines. What happens when the file cannot be opened or read
  depends on the environment.
- Csv.RoundTrip: `println` and `readLine` are not modelled at the level of characters.
  A line is assumed to be exactly what was printed. So the proved round trip also covers
  names that contain a line terminator, while the program behaves differently for them.
  Take a name `a` + newline + `b`. It is printed as one record (line 175), but
  `readLine` (line 191) returns it as the two lines `Telefono,a` and `b,false`. Each has
  two parts and is skipped (line 193), so the program loses that device.
- `mostrarInformacion` and all console output of `main` (lines 116-118, 125-133, 140-143)
  are presentation only and are left out.
- `instanceof Telefono` / `instanceof ComputadoraPortatil` (lines 148-154, 173-178)
  become a test of the `kind` tag of the single class `Device`. The model has no third
  class, so the writer's silent skip of other implementations does not arise.
- Only the single-literal-comma case of Java's regular-expression `split` is modelled.
  The limit argument (here 0) shows up only as the dropping of trailing empty strings.
- `equalsIgnoreCase` folds only the Latin letters A-Z. This is exact for the one use
  here, comparing against "true". It is not Java's full Unicode case folding.
- Csv.SaveLines appends the record as `EncodeLine` (the three fields joined by commas).
  Csv.EncodeLineText proves that this is the writer's concatenation
  `"Telefono," + modelo + "," + estado`.
- Stand.ValidateStand: the stand is a sequence value. So the call where the stand list
  itself is also passed as `encendidos` or `apagados` cannot be expressed. In Java the
  for-each (lines 159-163) then throws `ConcurrentModificationException` after the first
  append. Only the alias between the two output lists is modelled.
- Java accepts a null name: `new Telefono(null)` is written as `Telefono,null,false`
  (line 175) and read back with the four-letter name "null" (line 195), so the round trip
  fails for it. Dafny strings have no null, so the model has no such device.
- `modelo` and `marca` (lines 31, 64) are non-final fields, but nothing in the program
  assigns them after the constructor. The model therefore makes `name` a `const`.
- Store.StoreScenario: the scenario of `main` is stated for any four comma-free names.
  `Store.RunStore` is the literal instance, with its five lines spelled out in
  `Store.MainFile`.
