/**
 * The bus identifier that every I2C/SPI/other bus device carries: a packed
 * record of bus type (3 bits), bus instance number (5 bits), address on the
 * bus (8 bits) and device type (8 bits). Its fields are kept small so the
 * whole identifier survives transport as a single-precision float.
 */
module HalDevice {

  /** An unsigned 8-bit integer. */
  newtype Byte = x: int | 0 <= x < 256

  /** The value range of a 3-bit unsigned bit-field. */
  newtype Bits3 = x: int | 0 <= x < 8

  /** The value range of a 5-bit unsigned bit-field. */
  newtype Bits5 = x: int | 0 <= x < 32

  /** The kinds of bus a device may sit on, in the order of their enumerator values. */
  datatype BusType = Unknown | I2C | SPI | UAVCAN | SITL | MSP | Serial | WSPI

  /** The integer value of each enumerator; all of them fit in three bits. */
  function BusTypeValue(t: BusType): (v: int)
    ensures 0 <= v < 8
  {
    match t
    case Unknown => 0
    case I2C => 1
    case SPI => 2
    case UAVCAN => 3
    case SITL => 4
    case MSP => 5
    case Serial => 6
    case WSPI => 7
  }

  /** The enumerator a 3-bit bus-type field denotes. */
  function BusTypeOfField(f: Bits3): (t: BusType)
    ensures BusTypeValue(t) == f as int
  {
    match f
    case 0 => Unknown
    case 1 => I2C
    case 2 => SPI
    case 3 => UAVCAN
    case 4 => SITL
    case 5 => MSP
    case 6 => Serial
    case _ => WSPI
  }

  /** Storing a bus type into its 3-bit field loses nothing: reading the field
      back gives the same enumerator, and every field value is an enumerator. */
  lemma BusTypeFieldRoundTrip(t: BusType, f: Bits3)
    ensures BusTypeOfField(BusTypeValue(t) as Bits3) == t
    ensures BusTypeValue(BusTypeOfField(f)) as Bits3 == f
  {
  }

  /** Assigning an 8-bit value to a 5-bit unsigned bit-field keeps its low five bits. */
  function TruncateToBits5(b: Byte): (f: Bits5)
    ensures f as int == b as int % 32
    ensures b < 32 ==> f as int == b as int
  {
    LowBitsAreRemainder(b as bv8);
    ((b as bv8) & 0x1F) as int as Bits5
  }

  /** Masking the low five bits of a byte is taking its remainder modulo 32. */
  lemma LowBitsAreRemainder(x: bv8)
    ensures (x & 0x1F) as int == x as int % 32
  {
    assert x & 0x1F == x % 32;
  }

  /** The four fields of the bus identifier. */
  datatype DeviceStructure = DeviceStructure(busType: Bits3, bus: Bits5, address: Byte, devtype: Byte)

  /** The record after storing an address. */
  function WithAddress(s: DeviceStructure, address: Byte): (r: DeviceStructure)
    ensures r.address == address
    ensures r.(address := s.address) == s
  {
    s.(address := address)
  }

  /** The record after storing a bus number. */
  function WithBus(s: DeviceStructure, bus: Byte): (r: DeviceStructure)
    ensures r.bus as int == bus as int % 32
    ensures r.(bus := s.bus) == s
  {
    s.(bus := TruncateToBits5(bus))
  }

  /** Each setter writes its own field and no other, so the two commute, the
      later of two writes to the same field wins, and the bus number read back
      is the stored value modulo 32. */
  lemma SettersIndependent(s: DeviceStructure, a: Byte, a': Byte, b: Byte, b': Byte)
    ensures WithAddress(s, a).address == a
    ensures WithAddress(s, a).(address := s.address) == s
    ensures WithBus(s, b).bus as int == b as int % 32 < 32
    ensures WithBus(s, b).(bus := s.bus) == s
    ensures WithBus(WithAddress(s, a), b) == WithAddress(WithBus(s, b), a)
    ensures WithAddress(WithAddress(s, a'), a) == WithAddress(s, a)
    ensures WithBus(WithBus(s, b'), b) == WithBus(s, b)
  {
  }

  /** One call of a field setter. */
  datatype DeviceCommand = SetAddress(address: Byte) | SetBus(bus: Byte)

  function Step(s: DeviceStructure, c: DeviceCommand): DeviceStructure
  {
    match c
    case SetAddress(a) => WithAddress(s, a)
    case SetBus(b) => WithBus(s, b)
  }

  /** The record after the commands, applied first to last. */
  function Run(s: DeviceStructure, cmds: seq<DeviceCommand>): DeviceStructure
    decreases |cmds|
  {
    if cmds == [] then s else Run(Step(s, cmds[0]), cmds[1..])
  }

  /** No sequence of setter calls changes the bus type or the device type. */
  lemma {:induction false} RunKeepsBusTypeAndDevtype(s: DeviceStructure, cmds: seq<DeviceCommand>)
    ensures Run(s, cmds).busType == s.busType
    ensures Run(s, cmds).devtype == s.devtype
    decreases |cmds|
  {
    if cmds != [] {
      RunKeepsBusTypeAndDevtype(Step(s, cmds[0]), cmds[1..]);
    }
  }

  /** Bus-number calls never disturb the address, and address calls never
      disturb the bus number. */
  lemma {:induction false} RunSeparatesFields(s: DeviceStructure, cmds: seq<DeviceCommand>)
    ensures (forall k :: 0 <= k < |cmds| ==> cmds[k].SetBus?) ==> Run(s, cmds).address == s.address
    ensures (forall k :: 0 <= k < |cmds| ==> cmds[k].SetAddress?) ==> Run(s, cmds).bus == s.bus
    decreases |cmds|
  {
    if cmds != [] {
      RunSeparatesFields(Step(s, cmds[0]), cmds[1..]);
      assert forall k :: 0 <= k < |cmds| - 1 ==> cmds[1..][k] == cmds[k + 1];
    }
  }

  /** A bus device, as far as its bus identifier goes. */
  class Device {
    var busId: DeviceStructure

    /** Records the bus type. The C++ constructor writes no other field
        of the identifier, so nothing is promised about them. */
    constructor (busType: BusType)
      ensures BusTypeOfField(busId.busType) == busType
    {
      BusTypeFieldRoundTrip(busType, 0);
      busId := DeviceStructure(BusTypeValue(busType) as Bits3, 0, 0, 0);
    }

    /** The bus type; a read that changes nothing. */
    method GetBusType() returns (t: BusType)
      ensures BusTypeValue(t) == busId.busType as int
    {
      t := BusTypeOfField(busId.busType);
    }

    /** The bus instance number, always below 32; a read that changes nothing. */
    method BusNum() returns (n: Byte)
      ensures n as int == busId.bus as int
      ensures n < 32
    {
      n := busId.bus as int as Byte;
    }

    /** The address on the bus; a read that changes nothing. */
    method GetBusAddress() returns (a: Byte)
      ensures a == busId.address
    {
      a := busId.address;
    }

    method SetDeviceAddress(address: Byte)
      modifies this
      ensures busId.address == address
      ensures busId.busType == old(busId.busType) && busId.bus == old(busId.bus)
      ensures busId.devtype == old(busId.devtype)
      ensures busId == WithAddress(old(busId), address)
    {
      busId := busId.(address := address);
    }

    method SetDeviceBus(bus: Byte)
      modifies this
      ensures busId.bus as int == bus as int % 32
      ensures busId.busType == old(busId.busType) && busId.address == old(busId.address)
      ensures busId.devtype == old(busId.devtype)
      ensures busId == WithBus(old(busId), bus)
    {
      busId := busId.(bus := TruncateToBits5(bus));
    }
  }
}
