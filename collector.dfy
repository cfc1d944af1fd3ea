/**
 * One pass of the collection loop: poll the environmental sensor, feed the
 * humidity and VOC readings to the IAQ engine and store the weather, VOC and
 * IAQ values in the register table; then read a particulate packet and, when
 * it is accepted, feed its PM readings to the averagers and AQI engine and
 * store the frame words, the AQI indices and the averages.
 *
 * The numeric engines are opaque. Each is a function from what has been fed
 * to it so far to the values it reports, so a Station records the feeds.
 */
module Collector {
  import opened Fallback
  import opened Pms5003
  import opened Registers

  datatype Option<T> = None | Some(value: T)

  /**
   * The quality-control value written every tick: the decimal Python prints
   * for `math.pi`. The double's exact binary value and its rounding to the
   * 32-bit float in the register are not modelled.
   */
  const Pi: real := 3.141592653589793

  /** A successful read of the environmental sensor. */
  datatype BmeSample = BmeSample(
    temperature: real,     // degrees C
    pressure: real,        // hPa
    humidity: real,        // percent
    heatStable: bool,      // the gas heater reached its set point
    gasResistance: real)   // Ohm

  /** What the weather derivation reports. */
  datatype WxView = WxView(
    tempC: real, tempF: real, pressHpa: real, pressInHg: real, rh: real,
    dewC: real, dewF: real, vaporHpa: real, dryHpa: real, rhoKgM3: real, rhoLbFt3: real)

  /**
   * The `avg` of a 60-second averager and of the 60-minute and 24-hour ones
   * it promotes into. The 60-second one is read only right after a sample was
   * fed to it, so it holds a number; the longer ones may still be unset.
   */
  datatype Horizons = Horizons(avg60s: real, avg60m: PyVal, avg24h: PyVal)

  /** What the IAQ engine reports: score, its two contributions, and its VOC averages. */
  datatype IaqView = IaqView(score: real, rhPart: real, vocPart: real, voc: Horizons)

  /** What the AQI engine reports: three index triples and its PM2.5 and PM10 averages. */
  datatype AqiView = AqiView(
    aqi: real, aqiPm25: real, aqiPm10: real,
    nowcast: real, nowcastPm25: real, nowcastPm10: real,
    current: real, currentPm25: real, currentPm10: real,
    pm25: Horizons, pm10: Horizons)

  /** The calls made on the IAQ engine, in order. */
  datatype IaqFeed = RhSample(rh: real) | VocSample(kOhm: real)

  /** The calls made on the AQI engine, in order. */
  datatype AqiFeed = Pm25Sample(pm25: real) | Pm10Sample(pm10: real)

  /** The opaque engines, each as a function of its inputs. */
  datatype Engines = Engines(
    wx: (real, real, real) -> WxView,   // temperature C, pressure Pa, RH %
    iaq: seq<IaqFeed> -> IaqView,
    aqi: seq<AqiFeed> -> AqiView,
    pm01: seq<real> -> Horizons)        // the PM1.0 averager chain

  /** The reported 60-minute average: `avg60m or avg60s`. */
  function Hourly(h: Horizons): (r: real)
    ensures Truthy(h.avg60m) ==> r == h.avg60m.x
    ensures !Truthy(h.avg60m) ==> r == h.avg60s
  {
    Or(h.avg60m, PyFloat(h.avg60s)).x
  }

  /** The reported 24-hour average: `avg24h or avg60m or avg60s`. */
  function Daily(h: Horizons): (r: real)
    ensures Truthy(h.avg24h) ==> r == h.avg24h.x
    ensures !Truthy(h.avg24h) && Truthy(h.avg60m) ==> r == h.avg60m.x
    ensures !Truthy(h.avg24h) && !Truthy(h.avg60m) ==> r == h.avg60s
  {
    Or3(h.avg24h, h.avg60m, PyFloat(h.avg60s)).x
  }

  /** A genuine 60-minute average of 0.0 is reported as the 60-second one. */
  lemma HourlyMasksZero(h: Horizons)
    requires h.avg60m == PyFloat(0.0)
    ensures Hourly(h) == h.avg60s
  {
  }

  /** A reported 24-hour average is one of the three horizons' values. */
  lemma DailyIsSomeHorizon(h: Horizons)
    ensures Daily(h) == h.avg60s || PyFloat(Daily(h)) == h.avg60m || PyFloat(Daily(h)) == h.avg24h
  {
  }

  /**
   * The calls a successful sensor read makes on the IAQ engine: the humidity
   * first, then one VOC sample exactly when the heater is stable, whose value
   * in kOhm is a thousandth of the gas resistance in Ohm.
   */
  function IaqFeeds(b: BmeSample): (f: seq<IaqFeed>)
    ensures 1 <= |f| <= 2 && f[0] == RhSample(b.humidity)
    ensures |f| == 2 <==> b.heatStable
    ensures forall i :: 1 <= i < |f| ==> f[i].VocSample? && 1000.0 * f[i].kOhm == b.gasResistance
  {
    [RhSample(b.humidity)] + if b.heatStable then [VocSample(b.gasResistance / 1000.0)] else []
  }

  /**
   * The sample a packet feeds to the PM1.0 averager chain. For a packet as the
   * serial read returns it, something is fed exactly when the packet is longer
   * than a frame and starts with 0x42 0x4d, and it is the big-endian value of
   * bytes 4 and 5.
   */
  function Pm01Feeds(p: Packet): (f: seq<real>)
    ensures Decode(p).Frame? ==> f == [Pm1(Decode(p).words) as real]
    ensures !Decode(p).Frame? ==> f == []
    ensures |p.data| == p.count ==>
      (f != [] <==> p.count > FrameLength && p.data[0] == StartByte1 && p.data[1] == StartByte2)
    ensures |p.data| == p.count && p.count > FrameLength && p.data[0] == StartByte1 && p.data[1] == StartByte2 ==>
      f == [(256 * (p.data[4] as int) + p.data[5] as int) as real]
  {
    if |p.data| != p.count then
      if Decode(p).Frame? then [Pm1(Decode(p).words) as real] else []
    else
      DecodeSerialPacket(p);
      if Decode(p).Frame? then ReadingsFromBytes(p); [Pm1(Decode(p).words) as real] else []
  }

  /**
   * The samples a packet feeds to the AQI engine, PM2.5 then PM10. For a packet
   * as the serial read returns it, something is fed exactly when the packet is
   * longer than a frame and starts with 0x42 0x4d, and the samples are the
   * big-endian values of bytes 6-7 and 8-9.
   */
  function AqiFeeds(p: Packet): (f: seq<AqiFeed>)
    ensures Decode(p).Frame? ==> f == [Pm25Sample(Pm25(Decode(p).words) as real), Pm10Sample(Pm10(Decode(p).words) as real)]
    ensures !Decode(p).Frame? ==> f == []
    ensures |p.data| == p.count ==>
      (f != [] <==> p.count > FrameLength && p.data[0] == StartByte1 && p.data[1] == StartByte2)
    ensures |p.data| == p.count && p.count > FrameLength && p.data[0] == StartByte1 && p.data[1] == StartByte2 ==>
      f == [Pm25Sample((256 * (p.data[6] as int) + p.data[7] as int) as real),
            Pm10Sample((256 * (p.data[8] as int) + p.data[9] as int) as real)]
  {
    if |p.data| != p.count then
      if Decode(p).Frame? then [Pm25Sample(Pm25(Decode(p).words) as real), Pm10Sample(Pm10(Decode(p).words) as real)] else []
    else
      DecodeSerialPacket(p);
      if Decode(p).Frame? then
        ReadingsFromBytes(p);
        [Pm25Sample(Pm25(Decode(p).words) as real), Pm10Sample(Pm10(Decode(p).words) as real)]
      else []
  }

  /** The slots of the weather values, 40003 to 40011 and 40039 to 40049. */
  function WeatherSlots(): set<nat>
  {
    {TemperatureC, TemperatureF, PressureHpa, PressureInHg, RelativeHumidity,
     DewpointC, DewpointF, VaporPressure, DryAirPressure, DensityKgM3,
     DensityLbFt3}
  }

  /** The slots of the VOC reading, its IAQ contribution and its averages. */
  function VocSlots(): set<nat>
  {
    {Voc, IaqVoc, VocAvg60s, VocAvg60m, VocAvg24h}
  }

  /** The slots of the IAQ score and its humidity contribution. */
  function IaqSlots(): set<nat>
  {
    {Iaq, IaqRh}
  }

  /** The slots a successful sensor read writes: the VOC ones only once the heater is stable. */
  function BmeSlots(heatStable: bool): set<nat>
  {
    WeatherSlots() + IaqSlots() + if heatStable then VocSlots() else {}
  }

  /** The writes of a successful sensor read land on environmental registers only, never on 40001. */
  lemma BmeSlotsAreEnvironmental(heatStable: bool)
    ensures forall k :: k in BmeSlots(heatStable) ==> k < SlotCount && IsEnvironmentSlot(k) && k != QualityControl
  {
  }

  /** The weather writes, in the order the loop makes them. */
  function WriteWeather(r: seq<real>, wx: WxView): (r': seq<real>)
    requires |r| == SlotCount
    ensures |r'| == SlotCount
    ensures r'[TemperatureC] == wx.tempC && r'[TemperatureF] == wx.tempF
    ensures r'[PressureHpa] == wx.pressHpa && r'[PressureInHg] == wx.pressInHg
    ensures r'[RelativeHumidity] == wx.rh
    ensures r'[DewpointC] == wx.dewC && r'[DewpointF] == wx.dewF
    ensures r'[VaporPressure] == wx.vaporHpa && r'[DryAirPressure] == wx.dryHpa
    ensures r'[DensityKgM3] == wx.rhoKgM3 && r'[DensityLbFt3] == wx.rhoLbFt3
  {
    r[TemperatureC := wx.tempC][TemperatureF := wx.tempF]
      [PressureHpa := wx.pressHpa][PressureInHg := wx.pressInHg][RelativeHumidity := wx.rh]
      [DewpointC := wx.dewC][DewpointF := wx.dewF][VaporPressure := wx.vaporHpa]
      [DryAirPressure := wx.dryHpa][DensityKgM3 := wx.rhoKgM3][DensityLbFt3 := wx.rhoLbFt3]
  }

  /** The VOC writes of a read with the heater stable: the reading in kOhm, its IAQ part and its averages. */
  function WriteVoc(r: seq<real>, voc: real, iv: IaqView): (r': seq<real>)
    requires |r| == SlotCount
    ensures |r'| == SlotCount
    ensures r'[Voc] == voc && r'[IaqVoc] == iv.vocPart
    ensures r'[VocAvg60s] == iv.voc.avg60s
    ensures r'[VocAvg60m] == Hourly(iv.voc) && r'[VocAvg24h] == Daily(iv.voc)
  {
    r[Voc := voc][IaqVoc := iv.vocPart][VocAvg60s := iv.voc.avg60s]
      [VocAvg60m := Hourly(iv.voc)][VocAvg24h := Daily(iv.voc)]
  }

  /** The IAQ score and its humidity part. */
  function WriteIaq(r: seq<real>, iv: IaqView): (r': seq<real>)
    requires |r| == SlotCount
    ensures |r'| == SlotCount
    ensures r'[Iaq] == iv.score && r'[IaqRh] == iv.rhPart
  {
    r[Iaq := iv.score][IaqRh := iv.rhPart]
  }

  /**
   * The register writes of a successful sensor read, in the order the loop
   * makes them, given what the weather and IAQ engines report.
   */
  function WriteBme(r: seq<real>, b: BmeSample, wx: WxView, iv: IaqView): (r': seq<real>)
    requires |r| == SlotCount
    ensures |r'| == SlotCount
  {
    var weather := WriteWeather(r, wx);
    WriteIaq(if b.heatStable then WriteVoc(weather, b.gasResistance / 1000.0, iv) else weather, iv)
  }

  /** A successful read leaves every register outside its groups as it was. */
  lemma WriteBmeFrame(r: seq<real>, b: BmeSample, wx: WxView, iv: IaqView)
    requires |r| == SlotCount
    ensures forall k :: 0 <= k < SlotCount && k !in BmeSlots(b.heatStable) ==> WriteBme(r, b, wx, iv)[k] == r[k]
  {
  }

  /** While the heater is not stable the VOC registers keep their previous values. */
  lemma UnstableHeaterKeepsVoc(r: seq<real>, b: BmeSample, wx: WxView, iv: IaqView)
    requires |r| == SlotCount && !b.heatStable
    ensures var r' := WriteBme(r, b, wx, iv);
      r'[Voc] == r[Voc] && r'[IaqVoc] == r[IaqVoc] &&
      r'[VocAvg60s] == r[VocAvg60s] && r'[VocAvg60m] == r[VocAvg60m] && r'[VocAvg24h] == r[VocAvg24h]
  {
    WriteBmeFrame(r, b, wx, iv);
  }

  /** The groups do not overwrite each other: after a read every value the loop wrote is in its register. */
  lemma WriteBmeValues(r: seq<real>, b: BmeSample, wx: WxView, iv: IaqView)
    requires |r| == SlotCount
    ensures var r' := WriteBme(r, b, wx, iv);
      r'[TemperatureC] == wx.tempC && r'[TemperatureF] == wx.tempF &&
      r'[PressureHpa] == wx.pressHpa && r'[PressureInHg] == wx.pressInHg &&
      r'[RelativeHumidity] == wx.rh && r'[DewpointC] == wx.dewC && r'[DewpointF] == wx.dewF &&
      r'[VaporPressure] == wx.vaporHpa && r'[DryAirPressure] == wx.dryHpa &&
      r'[DensityKgM3] == wx.rhoKgM3 && r'[DensityLbFt3] == wx.rhoLbFt3 &&
      r'[Iaq] == iv.score && r'[IaqRh] == iv.rhPart
    ensures b.heatStable ==> var r' := WriteBme(r, b, wx, iv);
      r'[Voc] == b.gasResistance / 1000.0 && r'[IaqVoc] == iv.vocPart &&
      r'[VocAvg60s] == iv.voc.avg60s && r'[VocAvg60m] == Hourly(iv.voc) && r'[VocAvg24h] == Daily(iv.voc)
  {
  }

  /** The table after the loop has copied frame words 2 to n + 1 into their registers. */
  function WritePmWords(r: seq<real>, w: seq<Word>, n: nat): (r': seq<real>)
    requires |r| == SlotCount && |w| == FrameWords && n <= PmWordCount
    ensures |r'| == SlotCount
    ensures forall k :: 0 <= k < SlotCount ==>
      r'[k] == if PmFirst <= k < PmFirst + n then w[k - PmFirst + 2] as real else r[k]
  {
    if n == 0 then r
    else WritePmWords(r, w, n - 1)[PmSlot(n - 1) := w[n + 1] as real]
  }

  /** The AQI, NowCast and current-AQI triples, overall and for PM2.5 and PM10. */
  function WriteIndices(r: seq<real>, av: AqiView): (r': seq<real>)
    requires |r| == SlotCount
    ensures |r'| == SlotCount
    ensures r'[Aqi] == av.aqi && r'[AqiPm25] == av.aqiPm25 && r'[AqiPm10] == av.aqiPm10
    ensures r'[AqiNowcast] == av.nowcast && r'[AqiNowcastPm25] == av.nowcastPm25
    ensures r'[AqiNowcastPm10] == av.nowcastPm10
    ensures r'[AqiCurrent] == av.current && r'[AqiCurrentPm25] == av.currentPm25
    ensures r'[AqiCurrentPm10] == av.currentPm10
  {
    r[Aqi := av.aqi][AqiPm25 := av.aqiPm25][AqiPm10 := av.aqiPm10]
      [AqiNowcast := av.nowcast][AqiNowcastPm25 := av.nowcastPm25][AqiNowcastPm10 := av.nowcastPm10]
      [AqiCurrent := av.current][AqiCurrentPm25 := av.currentPm25][AqiCurrentPm10 := av.currentPm10]
  }

  /** The PM1.0, PM2.5 and PM10 averages, each longer horizon with its fallback. */
  function WriteAverages(r: seq<real>, pm01: Horizons, pm25: Horizons, pm10: Horizons): (r': seq<real>)
    requires |r| == SlotCount
    ensures |r'| == SlotCount
    ensures r'[Pm01Avg60s] == pm01.avg60s && r'[Pm01Avg60m] == Hourly(pm01) && r'[Pm01Avg24h] == Daily(pm01)
    ensures r'[Pm25Avg60s] == pm25.avg60s && r'[Pm25Avg60m] == Hourly(pm25) && r'[Pm25Avg24h] == Daily(pm25)
    ensures r'[Pm10Avg60s] == pm10.avg60s && r'[Pm10Avg60m] == Hourly(pm10) && r'[Pm10Avg24h] == Daily(pm10)
  {
    r[Pm01Avg60s := pm01.avg60s][Pm01Avg60m := Hourly(pm01)][Pm01Avg24h := Daily(pm01)]
      [Pm25Avg60s := pm25.avg60s][Pm25Avg60m := Hourly(pm25)][Pm25Avg24h := Daily(pm25)]
      [Pm10Avg60s := pm10.avg60s][Pm10Avg60m := Hourly(pm10)][Pm10Avg24h := Daily(pm10)]
  }

  /** The register writes after the frame words, given what the AQI engine and the PM1.0 chain report. */
  function WriteAqi(r: seq<real>, av: AqiView, pm01: Horizons): (r': seq<real>)
    requires |r| == SlotCount
    ensures |r'| == SlotCount
  {
    WriteAverages(WriteIndices(r, av), pm01, av.pm25, av.pm10)
  }

  /** The writes after the frame words leave every register outside the AQI block 40051-40085 as it was. */
  lemma WriteAqiFrame(r: seq<real>, av: AqiView, pm01: Horizons)
    requires |r| == SlotCount
    ensures forall k :: 0 <= k < SlotCount && !IsAqiSlot(k) ==> WriteAqi(r, av, pm01)[k] == r[k]
  {
  }

  /** The averages do not overwrite the indices: after an accepted frame every index and average is in its register. */
  lemma WriteAqiValues(r: seq<real>, av: AqiView, pm01: Horizons)
    requires |r| == SlotCount
    ensures var r' := WriteAqi(r, av, pm01);
      r'[Aqi] == av.aqi && r'[AqiPm25] == av.aqiPm25 && r'[AqiPm10] == av.aqiPm10 &&
      r'[AqiNowcast] == av.nowcast && r'[AqiNowcastPm25] == av.nowcastPm25 && r'[AqiNowcastPm10] == av.nowcastPm10 &&
      r'[AqiCurrent] == av.current && r'[AqiCurrentPm25] == av.currentPm25 && r'[AqiCurrentPm10] == av.currentPm10
    ensures var r' := WriteAqi(r, av, pm01);
      r'[Pm01Avg60s] == pm01.avg60s && r'[Pm01Avg60m] == Hourly(pm01) && r'[Pm01Avg24h] == Daily(pm01) &&
      r'[Pm25Avg60s] == av.pm25.avg60s && r'[Pm25Avg60m] == Hourly(av.pm25) && r'[Pm25Avg24h] == Daily(av.pm25) &&
      r'[Pm10Avg60s] == av.pm10.avg60s && r'[Pm10Avg60m] == Hourly(av.pm10) && r'[Pm10Avg24h] == Daily(av.pm10)
  {
  }

  /** All the register writes of an accepted frame. */
  function WritePms(r: seq<real>, w: seq<Word>, av: AqiView, pm01: Horizons): (r': seq<real>)
    requires |r| == SlotCount && |w| == FrameWords
    ensures |r'| == SlotCount
  {
    WriteAqi(WritePmWords(r, w, PmWordCount), av, pm01)
  }

  /**
   * After an accepted frame, register 40015 + 2i holds word i + 2, and no
   * environmental register has changed.
   */
  lemma WritePmsLayout(r: seq<real>, w: seq<Word>, av: AqiView, pm01: Horizons)
    requires |r| == SlotCount && |w| == FrameWords
    ensures forall i: nat :: i < PmWordCount ==> WritePms(r, w, av, pm01)[PmSlot(i)] == w[i + 2] as real
    ensures forall k :: 0 <= k < SlotCount && IsEnvironmentSlot(k) ==> WritePms(r, w, av, pm01)[k] == r[k]
  {
    var words := WritePmWords(r, w, PmWordCount);
    WriteAqiFrame(words, av, pm01);
    forall i: nat | i < PmWordCount ensures WritePms(r, w, av, pm01)[PmSlot(i)] == w[i + 2] as real {
      PmSlotsApart(i);
      assert words[PmSlot(i)] == w[i + 2] as real;
    }
  }

  /**
   * The collector's state: the register block, and the feeds made on the
   * PM1.0 averager chain, the AQI engine and the IAQ engine.
   */
  class Station {
    const eng: Engines
    const regs: array<real>
    var pm01Fed: seq<real>
    var aqiFed: seq<AqiFeed>
    var iaqFed: seq<IaqFeed>

    /** The block holds one float per slot. */
    ghost predicate Valid()
    {
      regs.Length == SlotCount
    }

    /** Service start: every register of the block reads 0 and nothing has been fed. */
    constructor (eng: Engines)
      ensures Valid() && this.eng == eng && fresh(regs)
      ensures forall k :: 0 <= k < SlotCount ==> regs[k] == 0.0
      ensures pm01Fed == [] && aqiFed == [] && iaqFed == []
    {
      this.eng := eng;
      regs := new real[SlotCount](_ => 0.0);
      pm01Fed, aqiFed, iaqFed := [], [], [];
    }

    /** `mb_set`: store a float at the registers of slot k, from address Address(k) on. */
    method Store(k: nat, v: real)
      requires Valid() && k < SlotCount
      modifies regs
      ensures regs[..] == old(regs[..])[k := v]
    {
      regs[k] := v;
    }

    /** Store the weather values, in the order the loop writes them. */
    method StoreWeather(wx: WxView)
      requires Valid()
      modifies regs
      ensures regs[..] == WriteWeather(old(regs[..]), wx)
    {
      Store(TemperatureC, wx.tempC);
      Store(TemperatureF, wx.tempF);
      Store(PressureHpa, wx.pressHpa);
      Store(PressureInHg, wx.pressInHg);
      Store(RelativeHumidity, wx.rh);
      Store(DewpointC, wx.dewC);
      Store(DewpointF, wx.dewF);
      Store(VaporPressure, wx.vaporHpa);
      Store(DryAirPressure, wx.dryHpa);
      Store(DensityKgM3, wx.rhoKgM3);
      Store(DensityLbFt3, wx.rhoLbFt3);
    }

    /** With the heater stable: store the VOC reading, feed it to the IAQ engine, then store its part and averages. */
    method StoreVoc(voc: real)
      requires Valid()
      modifies regs, this`iaqFed
      ensures iaqFed == old(iaqFed) + [VocSample(voc)]
      ensures regs[..] == WriteVoc(old(regs[..]), voc, eng.iaq(iaqFed))
    {
      Store(Voc, voc);
      iaqFed := iaqFed + [VocSample(voc)];
      var iv := eng.iaq(iaqFed);
      Store(IaqVoc, iv.vocPart);
      Store(VocAvg60s, iv.voc.avg60s);
      Store(VocAvg60m, Hourly(iv.voc));
      Store(VocAvg24h, Daily(iv.voc));
    }

    /** Store the IAQ score and its humidity part. */
    method StoreIaq(iv: IaqView)
      requires Valid()
      modifies regs
      ensures regs[..] == WriteIaq(old(regs[..]), iv)
    {
      Store(Iaq, iv.score);
      Store(IaqRh, iv.rhPart);
    }

    /** Poll the environmental sensor; `bme` is None when the driver had no new data. */
    method PollEnvironment(bme: Option<BmeSample>)
      requires Valid()
      modifies regs, this`iaqFed
      ensures iaqFed == old(iaqFed) + if bme.Some? then IaqFeeds(bme.value) else []
      ensures regs[..] == BmeWrites(old(regs[..]), bme, iaqFed)
    {
      if bme.None? {
        return;
      }
      var b := bme.value;
      var rh := b.humidity;
      var wx := eng.wx(b.temperature, 100.0 * b.pressure, rh);
      iaqFed := iaqFed + [RhSample(rh)];
      StoreWeather(wx);
      if b.heatStable {
        StoreVoc(b.gasResistance / 1000.0);
      }
      var iv := eng.iaq(iaqFed);
      StoreIaq(iv);
      assert iaqFed == old(iaqFed) + IaqFeeds(b);
    }

    /** Copy frame words 2 to 13 into registers 40015, 40017, ..., 40037. */
    method StorePmWords(w: seq<Word>)
      requires Valid() && |w| == FrameWords
      modifies regs
      ensures regs[..] == WritePmWords(old(regs[..]), w, PmWordCount)
    {
      for i := 0 to PmWordCount
        invariant regs[..] == WritePmWords(old(regs[..]), w, i)
      {
        Store(PmSlot(i), w[i + 2] as real);
      }
    }

    /** Store the AQI indices and the PM1.0, PM2.5 and PM10 averages, each longer horizon with its fallback. */
    method StoreAqi(av: AqiView, pm01: Horizons)
      requires Valid()
      modifies regs
      ensures regs[..] == WriteAqi(old(regs[..]), av, pm01)
    {
      Store(Aqi, av.aqi);
      Store(AqiPm25, av.aqiPm25);
      Store(AqiPm10, av.aqiPm10);
      Store(AqiNowcast, av.nowcast);
      Store(AqiNowcastPm25, av.nowcastPm25);
      Store(AqiNowcastPm10, av.nowcastPm10);
      Store(AqiCurrent, av.current);
      Store(AqiCurrentPm25, av.currentPm25);
      Store(AqiCurrentPm10, av.currentPm10);
      Store(Pm01Avg60s, pm01.avg60s);
      Store(Pm01Avg60m, Hourly(pm01));
      Store(Pm01Avg24h, Daily(pm01));
      Store(Pm25Avg60s, av.pm25.avg60s);
      Store(Pm25Avg60m, Hourly(av.pm25));
      Store(Pm25Avg24h, Daily(av.pm25));
      Store(Pm10Avg60s, av.pm10.avg60s);
      Store(Pm10Avg60m, Hourly(av.pm10));
      Store(Pm10Avg24h, Daily(av.pm10));
    }

    /** Read a particulate packet and, when it is accepted, feed and store its readings. */
    method PollParticulates(p: Packet) returns (ok: bool)
      requires Valid()
      modifies regs, this`pm01Fed, this`aqiFed
      ensures ok == !Decode(p).Fault?
      ensures pm01Fed == old(pm01Fed) + Pm01Feeds(p) && aqiFed == old(aqiFed) + AqiFeeds(p)
      ensures regs[..] == PmsWrites(old(regs[..]), p, aqiFed, pm01Fed)
    {
      var reading := Decode(p);
      if !reading.Frame? {
        return !reading.Fault?;
      }
      var s := reading.words;
      pm01Fed := pm01Fed + [Pm1(s) as real];
      aqiFed := aqiFed + [Pm25Sample(Pm25(s) as real)];
      aqiFed := aqiFed + [Pm10Sample(Pm10(s) as real)];
      StorePmWords(s);
      StoreAqi(eng.aqi(aqiFed), eng.pm01(pm01Fed));
      ok := true;
    }

    /**
     * One tick of the collection loop. `ok` is false when the packet makes
     * Python raise, which ends the loop.
     */
    method Tick(bme: Option<BmeSample>, p: Packet) returns (ok: bool)
      requires Valid()
      modifies regs, this`pm01Fed, this`aqiFed, this`iaqFed
      ensures ok == !Decode(p).Fault?
      ensures iaqFed == old(iaqFed) + if bme.Some? then IaqFeeds(bme.value) else []
      ensures pm01Fed == old(pm01Fed) + Pm01Feeds(p) && aqiFed == old(aqiFed) + AqiFeeds(p)
      ensures regs[..] == TickWrites(old(regs[..]), bme, p, iaqFed, aqiFed, pm01Fed)
    {
      Store(QualityControl, Pi);
      PollEnvironment(bme);
      ok := PollParticulates(p);
    }

    /** The register writes of the sensor poll, given the IAQ feed log after it. */
    function BmeWrites(r: seq<real>, bme: Option<BmeSample>, iaqLog: seq<IaqFeed>): (r': seq<real>)
      requires |r| == SlotCount
      ensures |r'| == SlotCount
      ensures bme.None? ==> r' == r
    {
      if bme.None? then r
      else
        var b := bme.value;
        WriteBme(r, b, eng.wx(b.temperature, 100.0 * b.pressure, b.humidity), eng.iaq(iaqLog))
    }

    /** The register writes of the particulate poll, given the AQI and PM1.0 feed logs after it. */
    function PmsWrites(r: seq<real>, p: Packet, aqiLog: seq<AqiFeed>, pm01Log: seq<real>): (r': seq<real>)
      requires |r| == SlotCount
      ensures |r'| == SlotCount
      ensures !Decode(p).Frame? ==> r' == r
    {
      if Decode(p).Frame? then WritePms(r, Decode(p).words, eng.aqi(aqiLog), eng.pm01(pm01Log)) else r
    }

    /**
     * The register block after a tick, given the feed logs after it (from
     * which the engines' reports are taken).
     */
    function TickWrites(r: seq<real>, bme: Option<BmeSample>, p: Packet,
                        iaqLog: seq<IaqFeed>, aqiLog: seq<AqiFeed>, pm01Log: seq<real>): (r': seq<real>)
      requires |r| == SlotCount
      ensures |r'| == SlotCount
    {
      PmsWrites(BmeWrites(r[QualityControl := Pi], bme, iaqLog), p, aqiLog, pm01Log)
    }

    /** The sensor poll leaves the quality-control register and every non-environmental register as it was. */
    lemma BmeWritesFrame(r: seq<real>, bme: Option<BmeSample>, iaqLog: seq<IaqFeed>)
      requires |r| == SlotCount
      ensures forall k :: 0 <= k < SlotCount && (k == QualityControl || !IsEnvironmentSlot(k)) ==>
        BmeWrites(r, bme, iaqLog)[k] == r[k]
    {
      if bme.Some? {
        var b := bme.value;
        BmeSlotsAreEnvironmental(b.heatStable);
        WriteBmeFrame(r, b, eng.wx(b.temperature, 100.0 * b.pressure, b.humidity), eng.iaq(iaqLog));
      }
    }

    /** The particulate poll leaves every environmental register as it was, and stores the frame words. */
    lemma PmsWritesLayout(r: seq<real>, p: Packet, aqiLog: seq<AqiFeed>, pm01Log: seq<real>)
      requires |r| == SlotCount
      ensures forall k :: 0 <= k < SlotCount && IsEnvironmentSlot(k) ==> PmsWrites(r, p, aqiLog, pm01Log)[k] == r[k]
      ensures Decode(p).Frame? ==> forall i: nat :: i < PmWordCount ==>
        PmsWrites(r, p, aqiLog, pm01Log)[PmSlot(i)] == Decode(p).words[i + 2] as real
    {
      if Decode(p).Frame? {
        WritePmsLayout(r, Decode(p).words, eng.aqi(aqiLog), eng.pm01(pm01Log));
      }
    }

    /** Every tick leaves pi in register 40001. */
    lemma TickMarksQuality(r: seq<real>, bme: Option<BmeSample>, p: Packet,
                           iaqLog: seq<IaqFeed>, aqiLog: seq<AqiFeed>, pm01Log: seq<real>)
      requires |r| == SlotCount
      ensures TickWrites(r, bme, p, iaqLog, aqiLog, pm01Log)[QualityControl] == Pi
    {
      var r1 := r[QualityControl := Pi];
      BmeWritesFrame(r1, bme, iaqLog);
      PmsWritesLayout(BmeWrites(r1, bme, iaqLog), p, aqiLog, pm01Log);
    }

    /** A tick without new sensor data leaves the weather, VOC and IAQ registers as they were. */
    lemma TickWithoutSensorData(r: seq<real>, p: Packet,
                                iaqLog: seq<IaqFeed>, aqiLog: seq<AqiFeed>, pm01Log: seq<real>)
      requires |r| == SlotCount
      ensures forall k :: 0 < k < SlotCount && IsEnvironmentSlot(k) ==>
        TickWrites(r, None, p, iaqLog, aqiLog, pm01Log)[k] == r[k]
    {
      PmsWritesLayout(r[QualityControl := Pi], p, aqiLog, pm01Log);
    }

    /** A tick whose packet is not accepted leaves the frame-word, AQI and average registers as they were. */
    lemma TickWithoutFrame(r: seq<real>, bme: Option<BmeSample>, p: Packet,
                           iaqLog: seq<IaqFeed>, aqiLog: seq<AqiFeed>, pm01Log: seq<real>)
      requires |r| == SlotCount && !Decode(p).Frame?
      ensures forall k :: 0 <= k < SlotCount && !IsEnvironmentSlot(k) ==>
        TickWrites(r, bme, p, iaqLog, aqiLog, pm01Log)[k] == r[k]
    {
      BmeWritesFrame(r[QualityControl := Pi], bme, iaqLog);
    }

    /** After a tick with an accepted frame, register 40015 + 2i holds frame word i + 2. */
    lemma TickStoresFrameWords(r: seq<real>, bme: Option<BmeSample>, p: Packet,
                               iaqLog: seq<IaqFeed>, aqiLog: seq<AqiFeed>, pm01Log: seq<real>)
      requires |r| == SlotCount && Decode(p).Frame?
      ensures forall i: nat :: i < PmWordCount ==>
        TickWrites(r, bme, p, iaqLog, aqiLog, pm01Log)[PmSlot(i)] == Decode(p).words[i + 2] as real
    {
      PmsWritesLayout(BmeWrites(r[QualityControl := Pi], bme, iaqLog), p, aqiLog, pm01Log);
    }

    /** A tick with new sensor data but an unstable heater leaves the five VOC registers as they were. */
    lemma TickUnstableHeaterKeepsVoc(r: seq<real>, b: BmeSample, p: Packet,
                                     iaqLog: seq<IaqFeed>, aqiLog: seq<AqiFeed>, pm01Log: seq<real>)
      requires |r| == SlotCount && !b.heatStable
      ensures var r' := TickWrites(r, Some(b), p, iaqLog, aqiLog, pm01Log);
        r'[Voc] == r[Voc] && r'[IaqVoc] == r[IaqVoc] &&
        r'[VocAvg60s] == r[VocAvg60s] && r'[VocAvg60m] == r[VocAvg60m] && r'[VocAvg24h] == r[VocAvg24h]
    {
      var r1 := r[QualityControl := Pi];
      UnstableHeaterKeepsVoc(r1, b, eng.wx(b.temperature, 100.0 * b.pressure, b.humidity), eng.iaq(iaqLog));
      PmsWritesLayout(BmeWrites(r1, Some(b), iaqLog), p, aqiLog, pm01Log);
    }

    /** No tick writes register 40099, the last of the block. */
    lemma TickKeepsSpare(r: seq<real>, bme: Option<BmeSample>, p: Packet,
                         iaqLog: seq<IaqFeed>, aqiLog: seq<AqiFeed>, pm01Log: seq<real>)
      requires |r| == SlotCount
      ensures TickWrites(r, bme, p, iaqLog, aqiLog, pm01Log)[Spare] == r[Spare]
    {
      var r1 := r[QualityControl := Pi];
      BmeWritesFrame(r1, bme, iaqLog);
      if Decode(p).Frame? {
        WriteAqiFrame(WritePmWords(BmeWrites(r1, bme, iaqLog), Decode(p).words, PmWordCount),
                      eng.aqi(aqiLog), eng.pm01(pm01Log));
      }
    }

    /** After a tick with new sensor data, the weather and IAQ registers hold what the engines report. */
    lemma TickStoresSensorValues(r: seq<real>, b: BmeSample, p: Packet,
                                 iaqLog: seq<IaqFeed>, aqiLog: seq<AqiFeed>, pm01Log: seq<real>)
      requires |r| == SlotCount
      ensures var r' := TickWrites(r, Some(b), p, iaqLog, aqiLog, pm01Log);
        var wx := eng.wx(b.temperature, 100.0 * b.pressure, b.humidity);
        var iv := eng.iaq(iaqLog);
        r'[TemperatureC] == wx.tempC && r'[TemperatureF] == wx.tempF &&
        r'[PressureHpa] == wx.pressHpa && r'[PressureInHg] == wx.pressInHg &&
        r'[RelativeHumidity] == wx.rh && r'[DewpointC] == wx.dewC && r'[DewpointF] == wx.dewF &&
        r'[VaporPressure] == wx.vaporHpa && r'[DryAirPressure] == wx.dryHpa &&
        r'[DensityKgM3] == wx.rhoKgM3 && r'[DensityLbFt3] == wx.rhoLbFt3 &&
        r'[Iaq] == iv.score && r'[IaqRh] == iv.rhPart
      ensures b.heatStable ==> var r' := TickWrites(r, Some(b), p, iaqLog, aqiLog, pm01Log);
        var iv := eng.iaq(iaqLog);
        r'[Voc] == b.gasResistance / 1000.0 && r'[IaqVoc] == iv.vocPart &&
        r'[VocAvg60s] == iv.voc.avg60s && r'[VocAvg60m] == Hourly(iv.voc) && r'[VocAvg24h] == Daily(iv.voc)
    {
      var r1 := r[QualityControl := Pi];
      WriteBmeValues(r1, b, eng.wx(b.temperature, 100.0 * b.pressure, b.humidity), eng.iaq(iaqLog));
      PmsWritesLayout(BmeWrites(r1, Some(b), iaqLog), p, aqiLog, pm01Log);
    }

    /** After a tick with an accepted frame, the AQI registers hold what the engines report, with the horizon fallback. */
    lemma TickStoresParticulateValues(r: seq<real>, bme: Option<BmeSample>, p: Packet,
                                      iaqLog: seq<IaqFeed>, aqiLog: seq<AqiFeed>, pm01Log: seq<real>)
      requires |r| == SlotCount && Decode(p).Frame?
      ensures var r' := TickWrites(r, bme, p, iaqLog, aqiLog, pm01Log);
        var av := eng.aqi(aqiLog);
        var pm01 := eng.pm01(pm01Log);
        r'[Aqi] == av.aqi && r'[AqiPm25] == av.aqiPm25 && r'[AqiPm10] == av.aqiPm10 &&
        r'[AqiNowcast] == av.nowcast && r'[AqiNowcastPm25] == av.nowcastPm25 && r'[AqiNowcastPm10] == av.nowcastPm10 &&
        r'[AqiCurrent] == av.current && r'[AqiCurrentPm25] == av.currentPm25 && r'[AqiCurrentPm10] == av.currentPm10 &&
        r'[Pm01Avg60s] == pm01.avg60s && r'[Pm01Avg60m] == Hourly(pm01) && r'[Pm01Avg24h] == Daily(pm01) &&
        r'[Pm25Avg60s] == av.pm25.avg60s && r'[Pm25Avg60m] == Hourly(av.pm25) && r'[Pm25Avg24h] == Daily(av.pm25) &&
        r'[Pm10Avg60s] == av.pm10.avg60s && r'[Pm10Avg60m] == Hourly(av.pm10) && r'[Pm10Avg24h] == Daily(av.pm10)
    {
      var r2 := BmeWrites(r[QualityControl := Pi], bme, iaqLog);
      WriteAqiValues(WritePmWords(r2, Decode(p).words, PmWordCount), eng.aqi(aqiLog), eng.pm01(pm01Log));
    }
  }
}
