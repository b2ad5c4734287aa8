# GyroCube hub simulator: message vocabulary and simulated cube network

A Dafny model of the two self-contained parts of the GyroCube hub simulator.

- **The HUB-CLOUD message vocabulary** (`communication/messages.py`, module
  `Messages`, pure). It covers the three message kinds REQUEST/RESPONSE/SIGNAL,
  the five MQTT topics and the twelve message tags, each with its membership test.
  It covers the common message envelope: kind, tag, timestamp and topic. It covers
  the ten concrete message classes, each fixing its own (kind, topic, tag). It also
  covers the textual form of a message, which is the instance dictionary without
  the topic. A message is a datatype with a variant payload, and each class is a
  constructor function. The textual form is a sequence of (key, value) entries in
  dictionary insertion order. The table `ClassHeader` states, in wire values, the
  header each class fixes, and every constructor is proved to conform to it.
- **The simulated cube network** (`testing/utils.py`, module `CubeNetwork`,
  mixed). `Cube` is a class whose `Flip` overwrites its fields in place.
  `Network` is a class whose field `network` is the sequence of cubes.
  `Join` and `Exit` reassign that field; `Full`, `Empty`, `Addresses` and
  `GetCubeById` are functions reading it. The id allocator
  `GetUniqueCubeId` keeps the source's redraw loop.
- **The network as written** (module `UtilsAsWritten`). Three operations of
  `testing/utils.py` fail on inputs the surrounding code evidently meant to
  handle. This module gives their outcomes as written; see "## Findings".

Random draws are parameters. `side` is a draw of `random.randint(1, 6)`.
`draws` is the sequence of draws of `random.randint(0x00, 0xFF)` that the
allocator loop makes. `choice` is the index `random.choice` picks. Each carries
a `requires` stating its range. The message timestamp, `time.time()` in the
source, is an integer supplied by the caller.

Where `testing/utils.py` mixes cubes and ids, the model follows the evident
id-based intent and says so in a comment at that line: the range check in
`join` applies to a supplied id only (utils.py:49, 51); `exit` removes the cube
carrying the id and returns the id (utils.py:62-65); and the allocator tests a
draw against the ids in use (utils.py:73). Two behaviours are kept as the code has
them. The allocator draws from [0x00, 0xFF] with both ends included, so it can
hand out 0x00 or 0xFF, which an explicit `join` rejects. And `join` with an
explicit id does not check the capacity, so only `join()` without an id keeps the
number of cubes within `size`.

## Model

| member | source | states |
|---|---|---|
| `Messages.TypeValue` | communication/messages.py:10-13 | a kind's integer value is 0x00..0x02, and it is 0x00 exactly for REQUEST |
| `Messages.TopicValue` | communication/messages.py:16-21 | every topic's value is a channel name starting with "/" |
| `Messages.TopicOf` | communication/messages.py:16-25 | the value-to-member lookup returns a topic whose value is the argument, or nothing when no topic has that value |
| `Messages.TopicHas` | communication/messages.py:23-25 | `MqttTopic.has(v)` holds exactly when some topic has value v; other values give false, not an error |
| `Messages.TopicHasExactly` | communication/messages.py:16-25 | `has` is true exactly for "/config", "/measurement", "/cube", "/network" and "/error" |
| `Messages.TopicRoundTrip` | communication/messages.py:16-25 | looking a topic up by its own value gives that topic back |
| `Messages.TopicValuesDistinct` | communication/messages.py:16-21 | two topics have the same value exactly when they are the same topic |
| `Messages.TagValue` | communication/messages.py:34-47 | every tag value lies in 0x01..0x0C |
| `Messages.TagOf` | communication/messages.py:28-51 | the value-to-member lookup returns a tag whose value is the argument, or nothing when no tag has that value |
| `Messages.TagHas` | communication/messages.py:49-51 | `MessageTag.has(v)` holds exactly when some tag has value v |
| `Messages.TagHasRange` | communication/messages.py:34-51 | `MessageTag.has(v)` is true exactly for the integers 0x01..0x0C |
| `Messages.TagRoundTrip` | communication/messages.py:34-51 | looking a tag up by its own value gives that tag back |
| `Messages.TagValuesDistinct` | communication/messages.py:29-47 | the twelve tag values are pairwise distinct |
| `Messages.Init` | communication/messages.py:65-70 | the message stores the kind as its integer value (0 exactly for REQUEST), the topic as its channel name (which looks up to that topic), the tag, the timestamp and the payload already set, unchanged |
| `Messages.NewMessage` | communication/messages.py:65-70 | a base-class message stores the kind's value, the topic's value, the tag and the timestamp, and has no class-specific fields |
| `Messages.CubeJoinedSignal` | communication/messages.py:90-94 | whatever the arguments, the message is (2, "/network", 0x01) and stores `cube_id` unchanged |
| `Messages.CubeDisconnectedSignal` | communication/messages.py:97-101 | whatever the arguments, the message is (2, "/network", 0x02) and stores `cube_id` unchanged |
| `Messages.MeasurementsSignal` | communication/messages.py:104-109 | whatever the arguments, the message is (2, "/measurement", 0x03) and stores `temp` and `humid` unchanged |
| `Messages.MeasurementsPeriodResponse` | communication/messages.py:112-120 | the message is (1, "/measurement", 0x05) with no class-specific fields |
| `Messages.CubeFlippedSignal` | communication/messages.py:123-129 | whatever the arguments, the message is (2, "/cube", 0x06) and stores `old` as `old_side` and `new` as `new_side` with `cube_id` |
| `Messages.CubeConfigIndication` | communication/messages.py:132-137 | whatever the arguments, the message is (2, "/config", 0x07) and stores `side_idx` and `cube_id` unchanged |
| `Messages.CubeConfigUpdateResponse` | communication/messages.py:140-149 | whatever the arguments, the message is (1, "/config", 0x09) and stores `cube_id` unchanged |
| `Messages.CubeHardwareError` | communication/messages.py:152-156 | whatever the arguments, the message is (2, "/error", 0x0A) and stores `cube_id` unchanged |
| `Messages.HubHardwareError` | communication/messages.py:159-163 | whatever the arguments, the message is (2, "/error", 0x0B) and stores `cube_id` unchanged |
| `Messages.MqttUnknownMessageError` | communication/messages.py:166-169 | the message is (2, "/error", 0x0C) with no class-specific fields |
| `Messages.ClassHeadersWellFormed` | communication/messages.py:90-169 | every class uses a known topic, a known tag, and kind RESPONSE or SIGNAL |
| `Messages.ClassTagsDistinct` | communication/messages.py:29-33 | two classes have the same tag exactly when they are the same class, so the tag alone identifies the class |
| `Messages.NoRequestClass` | communication/messages.py:37-41 | no class has kind REQUEST, and no class uses the request tags 0x04 and 0x08 |
| `Messages.EveryOtherTagHasClass` | communication/messages.py:34-47 | every tag other than 0x04 and 0x08 is the tag of some class |
| `Messages.TagDeterminesKindAndTopic` | communication/messages.py:29-33 | two messages of concrete classes with the same tag have the same kind, topic and class |
| `Messages.PayloadFields` | communication/messages.py:90-169 | the class-specific field names are distinct and never mtype, tag, timestamp or mtopic |
| `Messages.FieldsOf` | communication/messages.py:65-70 | the instance dictionary has distinct keys and holds the topic under "mtopic" |
| `Messages.Delete` | communication/messages.py:77-78 | deleting a key from a copy keeps exactly the other keys and only entries of the original |
| `Messages.Render` | communication/messages.py:72-80 | the textual form never contains "mtopic" |
| `Messages.Call` | communication/messages.py:82-83 | calling a message gives the same form as `str`, which is the instance dictionary minus its topic entry |
| `Messages.RenderDropsOnlyTopic` | communication/messages.py:72-80 | the textual form is the class-specific fields then mtype, tag and timestamp, in order; the instance dictionary is that form plus the topic, so the message keeps its topic |
| `Messages.RenderCommonFields` | communication/messages.py:72-80 | the textual form holds the message's kind, tag and timestamp and no topic |
| `Messages.RenderKeys` | communication/messages.py:72-80 | the keys of the textual form are distinct: the class-specific keys followed by mtype, tag and timestamp |
| `Messages.RenderInjective` | communication/messages.py:72-80 | only the topic is lost: two conforming messages of one class on the same topic with the same textual form are equal |
| `CubeNetwork.Cube.constructor` | testing/utils.py:12-14 | a new cube has the given id and a side in 1..6 |
| `CubeNetwork.Cube.Flip` | testing/utils.py:16-18 | after a flip the cube's id is the argument and its side is the new draw in 1..6 |
| `CubeNetwork.Network.constructor` | testing/utils.py:24-29 | a new network has no cubes and the given capacity |
| `CubeNetwork.Network.Addresses` | testing/utils.py:41-44 | the addresses are the cubes' ids in list order |
| `CubeNetwork.Network.Full` | testing/utils.py:31-34 | the network is full exactly when it holds `size` cubes |
| `CubeNetwork.Network.Empty` | testing/utils.py:36-39 | the network is empty exactly when it has no addresses |
| `CubeNetwork.Network.GetCubeById` | testing/utils.py:78-79 | the result is the first cube whose id is the target, or None exactly when no cube has it |
| `CubeNetwork.Network.GetUniqueCubeId` | testing/utils.py:69-76 | fails exactly when the network is full or holds 255 cubes or more; otherwise returns the first draw not in use, a value in [0x00, 0xFF] |
| `CubeNetwork.FreeIdExists` | testing/utils.py:70-76 | with fewer than 256 ids in use, some value in [0x00, 0xFF] is free, so the allocator loop has something to find |
| `CubeNetwork.Network.Join` | testing/utils.py:46-55 | fails with the id in use, then with the id out of (0x00, 0xFF), and without an id when no id can be allocated, leaving the cubes unchanged; otherwise appends exactly one fresh cube with the returned id and the drawn side and keeps the earlier cubes in order; keeps ids distinct; keeps the count within `size` when no id is given |
| `CubeNetwork.Network.Exit` | testing/utils.py:57-67 | fails on an empty network and on an id not in use, leaving the cubes unchanged; otherwise removes exactly the first cube with the given or picked id, keeps the others in order, and returns the id; with distinct ids the id is gone and the count drops by one |
| `CubeNetwork.Network.Remove` | testing/utils.py:65 | removes the first cube with the id and keeps the others in order, so the addresses lose the first occurrence of the id; with distinct ids the id is gone and the count drops by one |
| `CubeNetwork.RemoveFirstDistinct` | testing/utils.py:65 | removing the first occurrence of an id from distinct ids drops exactly that id and keeps the rest distinct |
| `UtilsAsWritten.JoinAsWritten` | testing/utils.py:46-55 | as written, an explicit id is accepted exactly when it is unused and strictly between 0x00 and 0xFF |
| `UtilsAsWritten.JoinWithoutIdRaises` | testing/utils.py:48-51 | as written, `join()` without an id raises TypeError on every network |
| `UtilsAsWritten.ExitAsWritten` | testing/utils.py:57-67 | as written, exit on an empty network or with an id not in use fails its assertion, exit with no id raises TypeError, and exit with an id in use raises ValueError |
| `UtilsAsWritten.ExitNeverReturns` | testing/utils.py:61-65 | as written, no call of `exit` returns |
| `UtilsAsWritten.GetUniqueCubeIdAsWritten` | testing/utils.py:69-76 | as written, the allocator returns the first draw whenever its assertion passes |
| `UtilsAsWritten.AllocatorReturnsUsedId` | testing/utils.py:72-74 | as written, on a network holding cube 0x07 the allocator hands out 0x07 again |

## Left out

- communication/mqtt_handler.py: MQTT plumbing over the external paho client (connect callback, printing, publishing). It is also incomplete: a bare `try` and a dangling attribute. Its one decision is to publish `MqttUnknownMessageError` for an unknown topic. No payload parsing, field check or tag dispatch exists in the code, so none is modelled.
- main.py: it only prints one base-class message.
- `Message.from_json`: a stub with no body; there is no parser to model.
- Timestamps: `time.time()` is a float read from the clock; the model takes an integer from the caller.
- Textual form: the exact text of Python's `str(dict)` (quoting, float and enum formatting) is not modelled; the form is the sequence of (key, value) entries in insertion order.
- Randomness: the draws are parameters with range preconditions; uniformity cannot be stated.
- `MqttTopic.has` and `MessageTag.has` take a string and an integer respectively. Python would also accept other types: `True` counts as tag 1, and an unhashable value raises TypeError. These are not modelled.
- CubeNetwork.Network.GetUniqueCubeId: the source redraws without bound; the model takes a finite sequence of draws and requires it to hold a free id whenever the allocator gets past its assertion. A free value exists then (FreeIdExists), so a fair random source finds one.
- CubeNetwork.Network.Join: inherits that requirement on `draws` when no id is given.
- Messages.Delete: defined also for a key that is absent, where it returns the entries unchanged; `del` would raise KeyError there. `Render` deletes only "mtopic", which `FieldsOf` always holds, so that case is never reached.
- Cube ownership: a cube is a shared object. A `Flip` on a cube that is in a network can give it an id another cube has. The network's invariants are stated as preserved by `Join` and `Exit` only.

## Findings

| source | as written | input that shows it | evidently intended | confidence | as-written member | corrected member |
|---|---|---|---|---|---|---|
| testing/utils.py:49 | `0x00 < cube_id < 0xff` runs before the `None` test at :51, so comparing None with an int raises TypeError | `join()` with no id, on any network | check the range only for a supplied id, and allocate an id otherwise | high; not executed | `UtilsAsWritten.JoinWithoutIdRaises` | `CubeNetwork.Network.Join` |
| testing/utils.py:62-65 | `random.choice` picks a Cube, `Cube in addresses` is false, and formatting the assertion message with `%d` on a Cube raises TypeError; `list.remove(int)` on a list of Cubes raises ValueError | `exit()` or `exit(5)` on a network holding cube 5 | remove the cube whose id matches and return that id | high; not executed | `UtilsAsWritten.ExitNeverReturns` | `CubeNetwork.Network.Exit` |
| testing/utils.py:73 | `new_cube_id in self.network` compares an int with Cubes, so it is always false and the first draw is returned | network holding cube 0x07, draws 0x07 then 0x08 | redraw while the draw is among the ids in use | high; not executed | `UtilsAsWritten.AllocatorReturnsUsedId` | `CubeNetwork.Network.GetUniqueCubeId` |
