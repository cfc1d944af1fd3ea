/**
 * The holding-register table the collection loop exposes over Modbus TCP.
 * One block of 100 holding registers starts at 40001; every metric is a
 * 32-bit float stored in the register pair (a, a + 1) for an odd address a,
 * so the table is modelled as 50 float slots, slot k holding the float at
 * registers 40001 + 2k and 40002 + 2k.
 */
module Registers {

  const BlockStart: int := 40001
  const BlockLength: int := 100

  /** The number of floats the block holds. */
  const SlotCount: nat := 50

  /** The first register of slot k. */
  function Address(k: nat): (a: int)
    requires k < SlotCount
    ensures BlockStart <= a && a + 1 < BlockStart + BlockLength
  {
    BlockStart + 2 * k
  }

  /** An address that starts a float: both of its registers lie in the block, at an even offset. */
  predicate IsSlot(a: int) {
    BlockStart <= a && a + 1 < BlockStart + BlockLength && (a - BlockStart) % 2 == 0
  }

  /** The slot whose float starts at address a. */
  function Slot(a: int): (k: nat)
    requires IsSlot(a)
    ensures k < SlotCount && Address(k) == a
  {
    (a - BlockStart) / 2
  }

  /** Every slot starts at an address that starts a float, and that address leads back to it. */
  lemma SlotOfAddress(k: nat)
    requires k < SlotCount
    ensures IsSlot(Address(k)) && Slot(Address(k)) == k
  {
  }

  // The slots of the metrics, by the register address documented beside each write of the loop.
  const QualityControl: nat := 0     // 40001, constant pi
  const TemperatureC: nat := 1       // 40003
  const TemperatureF: nat := 2       // 40005
  const PressureHpa: nat := 3        // 40007
  const PressureInHg: nat := 4       // 40009
  const RelativeHumidity: nat := 5   // 40011
  const Voc: nat := 6                // 40013, kOhm
  const PmFirst: nat := 7            // 40015, PM1.0 standard; eleven more follow
  const PmLast: nat := 18            // 40037, particles > 50 um
  const DewpointC: nat := 19         // 40039
  const DewpointF: nat := 20         // 40041
  const VaporPressure: nat := 21     // 40043
  const DryAirPressure: nat := 22    // 40045
  const DensityKgM3: nat := 23       // 40047
  const DensityLbFt3: nat := 24      // 40049
  const Aqi: nat := 25               // 40051
  const AqiPm25: nat := 26           // 40053
  const AqiPm10: nat := 27           // 40055
  const AqiNowcast: nat := 28        // 40057
  const AqiNowcastPm25: nat := 29    // 40059
  const AqiNowcastPm10: nat := 30    // 40061
  const AqiCurrent: nat := 31        // 40063
  const AqiCurrentPm25: nat := 32    // 40065
  const AqiCurrentPm10: nat := 33    // 40067
  const Pm01Avg60s: nat := 34        // 40069
  const Pm01Avg60m: nat := 35        // 40071
  const Pm01Avg24h: nat := 36        // 40073
  const Pm25Avg60s: nat := 37        // 40075
  const Pm25Avg60m: nat := 38        // 40077
  const Pm25Avg24h: nat := 39        // 40079
  const Pm10Avg60s: nat := 40        // 40081
  const Pm10Avg60m: nat := 41        // 40083
  const Pm10Avg24h: nat := 42        // 40085
  const Iaq: nat := 43               // 40087
  const IaqRh: nat := 44             // 40089
  const IaqVoc: nat := 45            // 40091
  const VocAvg60s: nat := 46         // 40093
  const VocAvg60m: nat := 47         // 40095
  const VocAvg24h: nat := 48         // 40097
  const Spare: nat := 49             // 40099, inside the block but never written by the loop

  /** The slot constants sit at the documented register addresses. */
  lemma DocumentedAddresses()
    ensures Address(QualityControl) == 40001 && Address(TemperatureC) == 40003
    ensures Address(TemperatureF) == 40005 && Address(PressureHpa) == 40007
    ensures Address(PressureInHg) == 40009 && Address(RelativeHumidity) == 40011
    ensures Address(Voc) == 40013 && Address(PmFirst) == 40015 && Address(PmLast) == 40037
    ensures Address(DewpointC) == 40039 && Address(DewpointF) == 40041
    ensures Address(VaporPressure) == 40043 && Address(DryAirPressure) == 40045
    ensures Address(DensityKgM3) == 40047 && Address(DensityLbFt3) == 40049
    ensures Address(Aqi) == 40051 && Address(AqiPm25) == 40053 && Address(AqiPm10) == 40055
    ensures Address(AqiNowcast) == 40057 && Address(AqiNowcastPm25) == 40059 && Address(AqiNowcastPm10) == 40061
    ensures Address(AqiCurrent) == 40063 && Address(AqiCurrentPm25) == 40065 && Address(AqiCurrentPm10) == 40067
    ensures Address(Pm01Avg60s) == 40069 && Address(Pm01Avg60m) == 40071 && Address(Pm01Avg24h) == 40073
    ensures Address(Pm25Avg60s) == 40075 && Address(Pm25Avg60m) == 40077 && Address(Pm25Avg24h) == 40079
    ensures Address(Pm10Avg60s) == 40081 && Address(Pm10Avg60m) == 40083 && Address(Pm10Avg24h) == 40085
    ensures Address(Iaq) == 40087 && Address(IaqRh) == 40089 && Address(IaqVoc) == 40091
    ensures Address(VocAvg60s) == 40093 && Address(VocAvg60m) == 40095 && Address(VocAvg24h) == 40097
    ensures Address(Spare) == 40099 && Spare + 1 == SlotCount
  {
  }

  /** The number of frame words the loop copies into registers: words 2 to 13. */
  const PmWordCount: nat := 12

  /** The slot that receives frame word i + 2: the one at register 40015 + 2i. */
  function PmSlot(i: nat): (k: nat)
    requires i < PmWordCount
    ensures PmFirst <= k <= PmLast && k < SlotCount
    ensures Address(k) == 40015 + 2 * i
  {
    PmFirst + i
  }

  /** Distinct words go to distinct registers. */
  lemma PmSlotInjective(i: nat, j: nat)
    requires i < PmWordCount && j < PmWordCount && i != j
    ensures PmSlot(i) != PmSlot(j)
  {
  }

  /** The word registers are exactly the float addresses from 40015 to 40037. */
  lemma PmSlotsCoverRange(a: int)
    requires 40015 <= a <= 40037 && IsSlot(a)
    ensures exists i: nat :: i < PmWordCount && Address(PmSlot(i)) == a
  {
    var i: nat := (a - 40015) / 2;
    assert Address(PmSlot(i)) == a;
  }

  /** The slots of the environmental sensor: quality control, weather, VOC and IAQ. */
  predicate IsEnvironmentSlot(k: nat) {
    k <= Voc || DewpointC <= k <= DensityLbFt3 || Iaq <= k <= VocAvg24h
  }

  /** The slots of the particulate indices and averages. */
  predicate IsAqiSlot(k: nat) {
    Aqi <= k <= Pm10Avg24h
  }

  /** In addresses: the environmental registers are 40001-40013, 40039-40049 and 40087-40097. */
  lemma EnvironmentRegisters(k: nat)
    requires k < SlotCount
    ensures IsEnvironmentSlot(k) <==>
      40001 <= Address(k) <= 40013 || 40039 <= Address(k) <= 40049 || 40087 <= Address(k) <= 40097
    ensures IsAqiSlot(k) <==> 40051 <= Address(k) <= 40085
  {
  }

  /** The word registers collide neither with the environmental registers nor with the AQI ones. */
  lemma PmSlotsApart(i: nat)
    requires i < PmWordCount
    ensures !IsEnvironmentSlot(PmSlot(i)) && !IsAqiSlot(PmSlot(i))
  {
  }
}
