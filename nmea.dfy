/** The slice of NMEA 2000 that the two boards exchange: PGN 130316,
    "Temperature, Extended Range". Framing, CAN arbitration and the byte
    encoding belong to the NMEA 2000 library and are not modelled; a message
    is seen through what the library's parser makes of it. */
module Nmea {

  datatype Option<T> = None | Some(value: T)

  /** An unsigned char field (SID, instance). */
  newtype uint8 = x: int | 0 <= x < 256

  /** PGN of "Temperature, Extended Range". */
  const PgnTemperatureExt: nat := 130316

  /** The library's tN2kTempSource, as its numeric code. */
  type TempSource = nat

  /** N2kts_MainCabinTemperature in the library's enumeration. */
  const MainCabinTemperature: TempSource := 4

  /** The fields that ParseN2kTemperatureExt fills in, in kelvin;
      a set temperature that is not available is None. */
  datatype TemperatureExt = TemperatureExt(
    sid: uint8,
    instance: uint8,
    source: TempSource,
    actual: real,
    setpoint: Option<real>)

  /** An inbound or outbound message: its PGN and the outcome of parsing it as
      PGN 130316 (None when ParseN2kTemperatureExt returns false). */
  datatype Message = Message(pgn: nat, asTemperatureExt: Option<TemperatureExt>)

  /** SetN2kTemperatureExt with its default "not available" set temperature,
      taken to be read back unchanged by the parser. */
  function SetTemperatureExt(sid: uint8, instance: uint8, source: TempSource, actual: real): Message
  {
    Message(PgnTemperatureExt, Some(TemperatureExt(sid, instance, source, actual, None)))
  }
}
