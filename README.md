# Air Quality Sensor Suite Mk II: the collection loop

This project models one tick of the collection loop of the Mk II air-quality
monitor (`software/main_aio.py`). The loop runs on a Raspberry Pi with two
sensors: a BME680 environmental sensor (temperature, pressure, humidity, VOC
gas resistance) and a PMS5003 particulate sensor. It exposes its readings as
32-bit floats in a block of Modbus holding registers.

One tick:

1. writes pi into register 40001 as a quality-control value;
2. polls the BME680. When the sensor has new data, the tick feeds the humidity
   to the IAQ engine and stores the weather values. Then, once the gas heater
   is stable, it stores the VOC reading in kOhm, feeds it to the IAQ engine,
   and stores the VOC contribution and the VOC averages. Last it stores the
   IAQ score and its humidity part, so the score includes that VOC sample;
3. reads a PMS5003 packet and accepts it only when:
   - the byte count is over 32;
   - after cutting the packet to its first 32 bytes, it starts with `0x42 0x4d`.

   An accepted frame is decoded as 16 big-endian unsigned 16-bit words. Word 2
   (PM1.0) goes to the PM1.0 averager chain. Words 3 and 4 (PM2.5, PM10) go to
   the AQI engine. Words 2 to 13 are stored at registers 40015, 40017, …,
   40037, and then the AQI indices and the PM averages.

Each longer-horizon average is stored as Python's `long or medium or short`.
The first truthy operand wins, so an unset (`None`) average and a genuine
`0.0` are both passed over.

The model has four modules:

- `Fallback` models Python's `or` on averages. It proves first-truthy selection
  and that a genuine 0.0 is masked. It compares `or` with a `FirstSet`
  reference that skips only `None`.
- `Pms5003` models packet acceptance exactly as Python runs it. This includes
  slice clamping in `del data[32-count:]`. An `IndexError` or `struct.error`
  becomes a `Fault` outcome. Big-endian unpacking comes with its inverse, and
  the module has round-trip lemmas.
- `Registers` models the register block: 100 registers from 40001, seen as
  50 float slots, where slot k starts at address 40001 + 2k. It names the
  slot of each documented address and proves where the frame words go.
- `Collector` holds the class `Station`. It has the register block as an
  `array<real>`, the engines, and the log of what has been fed to each engine.
  Its methods `Tick`, `PollEnvironment`, `PollParticulates` and the store
  helpers update the array store by store. Each is proved against a
  specification function (`TickWrites`, `BmeWrites`, `PmsWrites`,
  `WriteWeather`, …). Lemmas about those functions state what a tick
  preserves and what it stores.

The numeric engines (`WX`, `IAQ`, `AQI`, `CRR_AVG`) come from modules that are
not part of this model. `Engines` stands for each as a function. For IAQ, AQI
and the PM1.0 averager chain, the function maps the log of samples fed so far
to the values the engine reports. For WX, it maps the three inputs to the
derived weather values. So the model states which samples reach which engine,
and in what order.

## Model

| member | source | states |
|---|---|---|
| Fallback.Truthy | software/main_aio.py:174 | an average is falsy exactly when it is `None` or `0.0` |
| Fallback.Or | software/main_aio.py:174 | `a or b` is truthy exactly when `a` or `b` is; it is `a` or `b` itself; with a float last operand the result is a float |
| Fallback.Or3 | software/main_aio.py:175 | `a or b or c` with a float last operand yields a float |
| Fallback.Or3FirstTruthy | software/main_aio.py:175 | the first truthy of the three wins; when none is truthy the last is returned as it is |
| Fallback.OrAssociative | software/main_aio.py:253 | `(a or b) or c` equals `a or (b or c)` |
| Fallback.ZeroIsMasked | software/main_aio.py:252-253 | a longer-horizon average of exactly 0.0 is replaced by the shorter one, in both the two- and three-operand forms |
| Fallback.FirstSet | software/main_aio.py:174-175 | reference selection: the result is `None` only when both operands are, and is the first operand whenever that one is set |
| Fallback.OrAgreesWithFirstSet | software/main_aio.py:174-175 | `or` differs from `FirstSet` exactly when the first operand is 0.0 and the second is not 0.0 |
| Pms5003.SliceStart | software/main_aio.py:189 | Python's clamping of a slice start: in range it is kept, negative starts count from the end, out-of-range starts clamp to 0 or the length |
| Pms5003.DelFrom | software/main_aio.py:189 | `del data[start:]` leaves a prefix of the list |
| Pms5003.TruncateKeepsFrame | software/main_aio.py:188-189 | when the list holds `count > 32` bytes, the deletion leaves exactly its first 32 bytes, in order |
| Pms5003.Be16 | software/main_aio.py:191 | a big-endian word: its high byte is the word div 256, its low byte the word mod 256 |
| Pms5003.BigEndianWords | software/main_aio.py:191 | unpacking an even-length byte list gives half as many words, word i being bytes 2i and 2i+1 big-endian |
| Pms5003.WordBytes | software/main_aio.py:191 | packing words gives twice as many bytes |
| Pms5003.UnpackPack | software/main_aio.py:191 | unpacking the packed bytes gives the words back |
| Pms5003.PackUnpack | software/main_aio.py:191 | packing the unpacked words gives the bytes back |
| Pms5003.Decode | software/main_aio.py:188-191 | a frame is decoded exactly when `count > 32`, the truncated list has 32 bytes and the packet starts `0x42 0x4d`; it then has 16 words and word 0 is `0x424D`; nothing is decoded exactly when `count <= 32` |
| Pms5003.ExactFrameLengthRejected | software/main_aio.py:188 | a packet of exactly 32 bytes is not decoded |
| Pms5003.DecodeSerialPacket | software/main_aio.py:187-191 | for a packet whose count is its length, decoding never faults, succeeds exactly when `count > 32` and the header matches, and yields word i = 256·data[2i] + data[2i+1] |
| Pms5003.DecodeEncodedFrame | software/main_aio.py:188-191 | 16 words starting with `0x424D`, sent with at least one trailing byte, decode back to the same words |
| Pms5003.WordBytesAt | software/main_aio.py:191 | bytes 2i and 2i+1 of the packed words are the high and low byte of word i |
| Pms5003.Pm1 | software/main_aio.py:192 | the PM1.0 reading is the big-endian value of bytes 4 and 5 of the frame the words are sent as |
| Pms5003.Pm25 | software/main_aio.py:193 | the PM2.5 reading is the big-endian value of bytes 6 and 7 of that frame |
| Pms5003.Pm10 | software/main_aio.py:194 | the PM10 reading is the big-endian value of bytes 8 and 9 of that frame |
| Pms5003.ReadingsFromBytes | software/main_aio.py:192-194 | the PM1.0, PM2.5 and PM10 readings are bytes 4-5, 6-7 and 8-9 of the packet read big-endian |
| Registers.Address | software/main_aio.py:61-66 | a slot's first register lies in the block 40001-40100 with its pair register |
| Registers.Slot | software/main_aio.py:26-29 | an address that starts a float belongs to a slot, whose first register is that address |
| Registers.SlotOfAddress | software/main_aio.py:26-29 | a slot's address starts a float and leads back to that slot |
| Registers.DocumentedAddresses | software/main_aio.py:118-261 | each named slot sits at the register address documented beside its write; the unwritten last slot is 40099 |
| Registers.PmSlot | software/main_aio.py:210-211 | word i + 2 goes to register 40015 + 2i, within 40015..40037 |
| Registers.PmSlotInjective | software/main_aio.py:210-211 | distinct words go to distinct registers |
| Registers.PmSlotsCoverRange | software/main_aio.py:196-211 | every float address from 40015 to 40037 receives a word |
| Registers.EnvironmentRegisters | software/main_aio.py:118-182 | the environmental slots are the registers 40001-40013, 40039-40049 and 40087-40097; the AQI slots are 40051-40085 |
| Registers.PmSlotsApart | software/main_aio.py:119-211 | the word registers are neither 40001, nor environmental, nor AQI registers |
| Collector.Hourly | software/main_aio.py:252 | the stored 60-minute average (also at lines 174, 256 and 260) is the 60-minute one when truthy, else the 60-second one |
| Collector.Daily | software/main_aio.py:253 | the stored 24-hour average (also at lines 175, 257 and 261) is the first truthy of the 24-hour and 60-minute ones, else the 60-second one |
| Collector.HourlyMasksZero | software/main_aio.py:252 | a genuine 60-minute average of 0.0 is passed over: the stored value is the 60-second one |
| Collector.DailyIsSomeHorizon | software/main_aio.py:253 | the stored 24-hour average is one of the three horizons' values |
| Collector.IaqFeeds | software/main_aio.py:127-164 | a sensor read feeds the humidity first; a second call, a VOC sample, is made exactly when the heater is stable, and 1000 times its kOhm value is the gas resistance in Ohm |
| Collector.Pm01Feeds | software/main_aio.py:187-192 | for a packet as the serial read returns it, a PM1.0 sample is fed exactly when the count is over 32 and the packet starts `0x42 0x4d`, and it is 256·data[4] + data[5]; otherwise nothing is fed |
| Collector.AqiFeeds | software/main_aio.py:187-194 | for such a packet, the AQI engine is fed exactly when the same test passes, PM2.5 = 256·data[6] + data[7] first and PM10 = 256·data[8] + data[9] second |
| Collector.BmeSlotsAreEnvironmental | software/main_aio.py:129-182 | a sensor read writes only environmental registers, never 40001 |
| Collector.WriteWeather | software/main_aio.py:137-159 | each weather value is in its documented register |
| Collector.WriteVoc | software/main_aio.py:162-175 | the VOC reading, its IAQ part and its three averages (with fallback) are in their registers |
| Collector.WriteIaq | software/main_aio.py:181-182 | the IAQ score and its humidity part are in 40087 and 40089 |
| Collector.WriteBme | software/main_aio.py:137-182 | the writes of a sensor read keep the 50-slot block; what they store is `WriteBmeValues`, what they leave is `WriteBmeFrame` |
| Collector.WriteBmeFrame | software/main_aio.py:124-182 | a sensor read leaves every register outside its groups unchanged; the VOC group counts only with a stable heater |
| Collector.UnstableHeaterKeepsVoc | software/main_aio.py:161 | while the heater is not stable, the VOC registers keep their previous values |
| Collector.WriteBmeValues | software/main_aio.py:137-182 | after a sensor read, all eleven weather values, the IAQ score and its humidity part, and (with a stable heater) the VOC reading, its IAQ part and its three averages are in their registers; the later groups do not overwrite the earlier ones |
| Collector.WritePmWords | software/main_aio.py:210-211 | after n steps of the loop, slots 40015 … 40015 + 2(n-1) hold words 2 … n + 1 and every other register is unchanged |
| Collector.WriteIndices | software/main_aio.py:218-238 | the AQI, NowCast and current-AQI triples are in 40051-40067 |
| Collector.WriteAverages | software/main_aio.py:251-261 | the PM1.0, PM2.5 and PM10 averages, the longer ones with their fallback, are in 40069-40085 |
| Collector.WriteAqi | software/main_aio.py:218-261 | the index and average writes keep the 50-slot block; what they store is `WriteAqiValues`, what they leave is `WriteAqiFrame` |
| Collector.WriteAqiFrame | software/main_aio.py:218-261 | the writes after the frame words touch only registers 40051-40085 |
| Collector.WriteAqiValues | software/main_aio.py:218-261 | after those writes, every index and average is in its register |
| Collector.WritePms | software/main_aio.py:210-261 | the writes of an accepted frame keep the 50-slot block; what they store and leave is `WritePmsLayout` |
| Collector.WritePmsLayout | software/main_aio.py:196-261 | after an accepted frame, register 40015 + 2i holds word i + 2 and no environmental register has changed |
| Collector.Station.constructor | software/main_aio.py:61-66 | at service start every slot of the block reads 0.0 and nothing has been fed |
| Collector.Station.Store | software/main_aio.py:26-29 | `mb_set` replaces the one float of its slot and nothing else |
| Collector.Station.StoreWeather | software/main_aio.py:137-159 | the block becomes `WriteWeather` of the old block |
| Collector.Station.StoreVoc | software/main_aio.py:162-175 | the VOC sample is appended to the IAQ feed log and the block becomes `WriteVoc` with what the IAQ engine reports after it |
| Collector.Station.StoreIaq | software/main_aio.py:181-182 | the block becomes `WriteIaq` of the old block |
| Collector.Station.PollEnvironment | software/main_aio.py:124-182 | the IAQ feed log grows by `IaqFeeds` of the sample, or not at all without new data, and the block becomes `BmeWrites` of the old one |
| Collector.Station.StorePmWords | software/main_aio.py:210-211 | the loop leaves the block equal to `WritePmWords` after all 12 words (loop invariant) |
| Collector.Station.StoreAqi | software/main_aio.py:218-261 | the block becomes `WriteAqi` of the old block |
| Collector.Station.PollParticulates | software/main_aio.py:187-261 | `ok` is false exactly when decoding the packet raises; the feed logs grow by `Pm01Feeds` and `AqiFeeds`; the block becomes `PmsWrites` of the old one |
| Collector.Station.Tick | software/main_aio.py:118-261 | `ok` is false exactly when decoding the packet raises; all three feed logs grow as in the two polls; the block becomes `TickWrites` of the old one |
| Collector.Station.BmeWrites | software/main_aio.py:124-182 | without new sensor data the block is unchanged |
| Collector.Station.TickWrites | software/main_aio.py:121-261 | the block after a tick keeps its 50 slots; what it holds and keeps is stated by the `Tick…` lemmas below |
| Collector.Station.PmsWrites | software/main_aio.py:188-261 | a packet that is not accepted leaves the block unchanged |
| Collector.Station.BmeWritesFrame | software/main_aio.py:121-182 | the sensor poll leaves 40001 and every non-environmental register unchanged |
| Collector.Station.PmsWritesLayout | software/main_aio.py:188-261 | the particulate poll leaves every environmental register unchanged and stores the frame words |
| Collector.Station.TickMarksQuality | software/main_aio.py:118-121 | after every tick, register 40001 holds pi |
| Collector.Station.TickWithoutSensorData | software/main_aio.py:124 | a tick without new sensor data leaves every environmental register except 40001 unchanged |
| Collector.Station.TickWithoutFrame | software/main_aio.py:188-190 | a tick whose packet is not accepted leaves every frame-word, AQI and average register unchanged |
| Collector.Station.TickStoresFrameWords | software/main_aio.py:210-211 | after a tick with an accepted frame, register 40015 + 2i holds word i + 2 |
| Collector.Station.TickUnstableHeaterKeepsVoc | software/main_aio.py:161-175 | a tick with sensor data but an unstable heater leaves 40013 and 40091-40097 unchanged |
| Collector.Station.TickKeepsSpare | software/main_aio.py:118-261 | no tick changes register 40099, the last float of the block, whether or not the packet is accepted |
| Collector.Station.TickStoresSensorValues | software/main_aio.py:124-182 | after a tick with sensor data, all eleven weather registers, 40087 and 40089, and (with a stable heater) all five VOC registers 40013 and 40091-40097 hold what the engines report, because the particulate writes do not overwrite them |
| Collector.Station.TickStoresParticulateValues | software/main_aio.py:218-261 | after a tick with an accepted frame, all nine AQI, NowCast and current-AQI registers and all nine PM averages (the longer ones with fallback) hold what the engines report |

## Left out

- The IEEE 754 encoding in `mb_set` (software/main_aio.py:26-29) is not modelled. A slot holds the real value itself, not the two 16-bit halves of its 32-bit float, so rounding to single precision is not modelled either. The string block at lines 30-55 is never executed.
- The internals of `WX`, `IAQ`, `AQI` and `CRR_AVG` are not modelled: those modules are not part of this model. `Engines` stands for each as a function of its inputs so far. So the model says nothing about how the engines compute what they report, or about averager promotion and persistence. It does assume that every engine value the loop stores is a float: the fields of `WxView`, `IaqView` and `AqiView` and every 60-second average are `real`. A `None` reaching `mb_set` (for example `iaq.IAQ` at software/main_aio.py:181 before the engine has data) would raise in `float(val)` at software/main_aio.py:28; that raise is not modelled.
- Collector.Station.Tick: every 60-second average is taken to be a number (`real`), because the loop reads it right after feeding a sample. Only the 60-minute and 24-hour averages can be `None`. So the model never stores `None` through `mb_set`, which in the source would raise when `float(None)` runs.
- Collector.Station.PollParticulates: `ok` is false exactly when decoding the packet raises. A raise from `mb_set` on a `None` engine value (software/main_aio.py:28) is not modelled, because engine values are typed as `real`.
- `Fault` marks a tick where Python raises (`IndexError` on a short list, `struct.error` on a list that is not 32 bytes). `Tick` reports it with `ok == false`. What follows in the source is not modelled: the exception ends the loop through the `finally` teardown.
- `del data[32-count:]` is modelled as a function on the byte list (`Pms5003.DelFrom`), not as an update in place. The list is local to the tick, so no other reference sees the change.
- The register block is a fixed-size `array<real>` of 50 float slots, not a dictionary. The block is a fixed 100-register range, and every `mb_set` address in the loop is an odd address inside it. `Station.Store` therefore takes a slot index k, and the register address `mb_set` is given is `Registers.Address(k)` = 40001 + 2k; `Registers.DocumentedAddresses` ties each named slot to the address written beside it in the source.
- Not modelled, because they are I/O and network plumbing:
  - the Modbus TCP server;
  - the Adafruit IO client, reconnection (software/main_aio.py:111-116) and `aio.publish` (software/main_aio.py:143-144, 184, 263-265);
  - BME680 and pigpio configuration (software/main_aio.py:83-99);
  - `time.sleep(60)` (software/main_aio.py:267) and the `finally` teardown (software/main_aio.py:269-273).

  Whether the BME680 has new data is the `Option` parameter of a tick. The serial read's `(count, data)` is its `Packet` parameter.
- `rev1/software/sensor_checkout/test_bme680.py` only configures the sensor and prints readings, so it has no logic to model.
