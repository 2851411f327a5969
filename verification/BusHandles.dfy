/** The ESP32 example transport's bus and device handles, with every native
    call free to fail: whatever fails, the context owns exactly the handles
    that are alive, and every device handle runs at the recorded frequency. */
module BusHandles {
  import opened CommandTable
  import opened DriverTypes

  datatype EspErr =
    | ESP_OK | ESP_ERR_TIMEOUT | ESP_ERR_INVALID_RESPONSE | ESP_ERR_INVALID_ARG
    | ESP_ERR_INVALID_STATE | ESP_ERR_NO_MEM | ESP_ERR_NOT_FOUND | ESP_FAIL

  function MapEspErr(error: EspErr): Err {
    match error
    case ESP_OK => OK
    case ESP_ERR_TIMEOUT => I2C_TIMEOUT
    case ESP_ERR_INVALID_RESPONSE => I2C_ERROR
    case ESP_ERR_INVALID_ARG => INVALID_PARAM
    case ESP_ERR_INVALID_STATE => I2C_BUS
    case ESP_ERR_NO_MEM => I2C_BUS
    case ESP_ERR_NOT_FOUND => I2C_BUS
    case ESP_FAIL => I2C_ERROR
  }

  /** A transaction in an invalid state is not a failed bus. */
  function MapTransactionErr(error: EspErr): Err {
    if error == ESP_ERR_INVALID_STATE then I2C_ERROR else MapEspErr(error)
  }

  const MIN_I2C_FREQUENCY_HZ := 10_000
  const MAX_I2C_FREQUENCY_HZ := 400_000
  const FIRST_ADDRESS := 0x08
  const LAST_ADDRESS := 0x77

  predicate ValidFrequency(frequencyHz: nat) {
    MIN_I2C_FREQUENCY_HZ <= frequencyHz <= MAX_I2C_FREQUENCY_HZ
  }

  /** Native handles; 0 is the null handle. */
  type Handle = nat
  const NULL_HANDLE: Handle := 0

  /** A live device handle: the bus it is on, its address and its clock. */
  datatype Attached = Attached(bus: Handle, address: uint8, frequencyHz: nat)

  datatype BusConfig = BusConfig(sdaConnected: bool, sclConnected: bool, frequencyHz: uint32)

  /** The native driver: the handles alive in it, and how its next calls go.
      A handle may be used only while it is alive. */
  class NativeI2c {
    var buses: set<Handle>
    var devices: map<Handle, Attached>
    var next: Handle
    var calls: nat
    const script: nat -> EspErr

    ghost predicate Valid()
      reads this
    {
      next > 0 && (forall h :: h in buses || h in devices ==> 0 < h < next)
    }

    constructor (script: nat -> EspErr)
      ensures Valid() && buses == {} && devices == map[] && this.script == script
    {
      buses, devices, next, calls := {}, map[], 1, 0;
      this.script := script;
    }

    method NewBus() returns (error: EspErr, bus: Handle)
      requires Valid()
      modifies this
      ensures Valid() && devices == old(devices) && next >= old(next)
      ensures error == ESP_OK ==> bus >= old(next) && buses == old(buses) + {bus} && bus !in old(devices)
      ensures error != ESP_OK ==> bus == NULL_HANDLE && buses == old(buses)
    {
      error := script(calls);
      calls := calls + 1;
      bus := NULL_HANDLE;
      if error == ESP_OK {
        bus := next;
        next := next + 1;
        buses := buses + {bus};
      }
    }

    method DelBus(bus: Handle) returns (error: EspErr)
      requires Valid() && bus in buses
      requires forall h :: h in devices ==> devices[h].bus != bus
      modifies this
      ensures Valid() && devices == old(devices) && next == old(next)
      ensures buses == if error == ESP_OK then old(buses) - {bus} else old(buses)
    {
      error := script(calls);
      calls := calls + 1;
      if error == ESP_OK {
        buses := buses - {bus};
      }
    }

    method AddDevice(bus: Handle, address: uint8, frequencyHz: nat) returns (error: EspErr, device: Handle)
      requires Valid() && bus in buses && ValidFrequency(frequencyHz) && FIRST_ADDRESS <= address <= LAST_ADDRESS
      modifies this
      ensures Valid() && buses == old(buses) && next >= old(next)
      ensures error == ESP_OK ==>
        && device >= old(next) && device !in old(devices)
        && devices == old(devices)[device := Attached(bus, address, frequencyHz)]
      ensures error != ESP_OK ==> device == NULL_HANDLE && devices == old(devices)
    {
      error := script(calls);
      calls := calls + 1;
      device := NULL_HANDLE;
      if error == ESP_OK {
        device := next;
        next := next + 1;
        devices := devices[device := Attached(bus, address, frequencyHz)];
      }
    }

    method RmDevice(device: Handle) returns (error: EspErr)
      requires Valid() && device in devices
      modifies this
      ensures Valid() && buses == old(buses) && next == old(next)
      ensures devices == if error == ESP_OK then old(devices) - {device} else old(devices)
    {
      error := script(calls);
      calls := calls + 1;
      if error == ESP_OK {
        devices := devices - {device};
      }
    }

    method TransmitReceive(device: Handle) returns (error: EspErr)
      requires Valid() && device in devices && devices[device].bus in buses
      modifies this`calls
      ensures Valid()
    {
      error := script(calls);
      calls := calls + 1;
    }
  }

  class Context {
    var bus: Handle
    var device: Handle
    var discoveryDevice: Handle
    var busConfig: BusConfig
    const address: uint8
    var discoveryAddress: uint8
    var hasBusConfig: bool
    const native: NativeI2c

    /** The device handles the context claims to own, and how they run. */
    ghost function Owned(): map<Handle, Attached>
      reads this
    {
      (if device != NULL_HANDLE then map[device := Attached(bus, address, busConfig.frequencyHz)] else map[]) +
      (if discoveryDevice != NULL_HANDLE
       then map[discoveryDevice := Attached(bus, discoveryAddress, busConfig.frequencyHz)] else map[])
    }

    /** The live native handles are exactly those in the context; no device
        outlives its bus, no discovery device outlives the device; every device
        handle runs at the recorded bus frequency and at its own address. */
    ghost predicate Valid()
      reads this, native
    {
      && native.Valid()
      && native.buses == (if bus != NULL_HANDLE then {bus} else {})
      && native.devices == Owned()
      && (device != NULL_HANDLE ==> bus != NULL_HANDLE)
      && (discoveryDevice != NULL_HANDLE ==>
           && device != NULL_HANDLE && discoveryDevice != device && discoveryAddress != address
           && FIRST_ADDRESS <= discoveryAddress <= LAST_ADDRESS)
      && (bus != NULL_HANDLE ==> hasBusConfig && FIRST_ADDRESS <= address <= LAST_ADDRESS)
      && (hasBusConfig ==>
           && busConfig.sdaConnected && busConfig.sclConnected && ValidFrequency(busConfig.frequencyHz)
           && FIRST_ADDRESS <= address <= LAST_ADDRESS)
    }

    predicate IsClosed()
      reads this
    {
      bus == NULL_HANDLE && device == NULL_HANDLE && discoveryDevice == NULL_HANDLE
    }

    predicate IsOpen()
      reads this
    {
      bus != NULL_HANDLE && device != NULL_HANDLE
    }

    constructor (address: uint8, script: nat -> EspErr)
      ensures Valid() && fresh(native) && IsClosed() && !hasBusConfig && this.address == address
    {
      bus, device, discoveryDevice := NULL_HANDLE, NULL_HANDLE, NULL_HANDLE;
      busConfig, discoveryAddress, hasBusConfig := BusConfig(false, false, 400_000), 0, false;
      this.address := address;
      native := new NativeI2c(script);
      new;
    }

    /** Opens all or nothing: only a failed rollback leaves the bus behind, and
        then the context still owns it. */
    method Open(config: BusConfig) returns (status: Err)
      requires Valid()
      modifies this, native
      ensures Valid()
      ensures status == OK ==> old(IsClosed()) && IsOpen() && discoveryDevice == NULL_HANDLE && busConfig == config
      ensures status != OK && old(IsClosed()) ==> device == NULL_HANDLE && discoveryDevice == NULL_HANDLE
      ensures !old(IsClosed()) ==>
        status == I2C_BUS && bus == old(bus) && device == old(device) && discoveryDevice == old(discoveryDevice)
        && busConfig == old(busConfig) && native.devices == old(native.devices)
    {
      if bus != NULL_HANDLE || device != NULL_HANDLE || discoveryDevice != NULL_HANDLE {
        return I2C_BUS;
      }
      if !config.sdaConnected || !config.sclConnected || !ValidFrequency(config.frequencyHz)
         || address < FIRST_ADDRESS || address > LAST_ADDRESS {
        return INVALID_CONFIG;
      }
      busConfig := config;
      hasBusConfig := true;
      var created, newBus := native.NewBus();
      status := MapEspErr(created);
      if status != OK {
        return;
      }
      var added, newDevice := native.AddDevice(newBus, address, config.frequencyHz);
      status := MapEspErr(added);
      if status != OK {
        var rollback := native.DelBus(newBus);
        if rollback != ESP_OK {
          bus := newBus;
          return MapEspErr(rollback);
        }
        return;
      }
      bus := newBus;
      device := newDevice;
    }

    method DropDiscovery() returns (status: Err)
      requires Valid() && discoveryDevice != NULL_HANDLE
      modifies this`discoveryDevice, this`discoveryAddress, native
      ensures Valid()
      ensures discoveryDevice == if status == OK then NULL_HANDLE else old(discoveryDevice)
    {
      var removed := native.RmDevice(discoveryDevice);
      status := MapEspErr(removed);
      if status == OK {
        discoveryDevice := NULL_HANDLE;
        discoveryAddress := 0;
      }
    }

    method DropDevice() returns (status: Err)
      requires Valid() && device != NULL_HANDLE && discoveryDevice == NULL_HANDLE
      modifies this`device, native
      ensures Valid()
      ensures device == if status == OK then NULL_HANDLE else old(device)
    {
      var removed := native.RmDevice(device);
      status := MapEspErr(removed);
      if status == OK {
        device := NULL_HANDLE;
      }
    }

    /** Releases discovery device, device and bus in this order and stops at
        the first refusal, keeping what is still alive. */
    method Close() returns (status: Err)
      requires Valid()
      modifies this, native
      ensures Valid() && busConfig == old(busConfig) && hasBusConfig == old(hasBusConfig)
      ensures status == OK <==> IsClosed()
      ensures bus == old(bus) || bus == NULL_HANDLE
      ensures device == old(device) || device == NULL_HANDLE
      ensures discoveryDevice == old(discoveryDevice) || discoveryDevice == NULL_HANDLE
    {
      if discoveryDevice != NULL_HANDLE {
        status := DropDiscovery();
        if status != OK {
          return;
        }
      }
      if device != NULL_HANDLE {
        status := DropDevice();
        if status != OK {
          return;
        }
      }
      if bus != NULL_HANDLE {
        var deleted := native.DelBus(bus);
        status := MapEspErr(deleted);
        if status != OK {
          return;
        }
        bus := NULL_HANDLE;
      }
      status := OK;
    }

    method Reopen() returns (status: Err)
      requires Valid()
      modifies this, native
      ensures Valid()
      ensures status == OK ==>
        old(IsClosed()) && IsOpen() && discoveryDevice == NULL_HANDLE && busConfig == old(busConfig)
      ensures !old(IsClosed()) ==> status == I2C_BUS && native.devices == old(native.devices)
    {
      if bus != NULL_HANDLE || device != NULL_HANDLE || discoveryDevice != NULL_HANDLE {
        return I2C_BUS;
      }
      if !hasBusConfig {
        return INVALID_CONFIG;
      }
      var config := busConfig;
      status := Open(config);
    }

    /** Success means a fresh bus and device at the old frequency; the
        inconsistent-handles answer is never given. */
    method Recover() returns (status: Err)
      requires Valid()
      modifies this, native
      ensures Valid()
      ensures status == OK ==> IsOpen() && discoveryDevice == NULL_HANDLE && busConfig == old(busConfig)
      ensures !old(hasBusConfig) ==> status == INVALID_CONFIG
    {
      if !hasBusConfig {
        return INVALID_CONFIG;
      }
      if (device != NULL_HANDLE || discoveryDevice != NULL_HANDLE) && bus == NULL_HANDLE {
        assert false;
      }
      status := Close();
      if status != OK {
        return;
      }
      status := Reopen();
    }

    /** A new frequency is recorded exactly when the device runs at it; any
        failure leaves the old one recorded, with the device still at it or
        gone while the bus stays owned. */
    method SetFrequency(requestedHz: uint32) returns (status: Err)
      requires Valid()
      modifies this, native
      ensures Valid() && bus == old(bus)
      ensures busConfig.frequencyHz == if status == OK then requestedHz else old(busConfig.frequencyHz)
      ensures status == OK ==> IsOpen()
      ensures status == OK && requestedHz != old(busConfig.frequencyHz) ==> discoveryDevice == NULL_HANDLE
      ensures !old(IsOpen()) || !ValidFrequency(requestedHz) ==>
        status != OK && device == old(device) && discoveryDevice == old(discoveryDevice)
    {
      if bus == NULL_HANDLE || device == NULL_HANDLE || !hasBusConfig {
        return I2C_BUS;
      }
      if !ValidFrequency(requestedHz) {
        return INVALID_PARAM;
      }
      var previousHz := busConfig.frequencyHz;
      if requestedHz == previousHz {
        return OK;
      }
      if discoveryDevice != NULL_HANDLE {
        status := DropDiscovery();
        if status != OK {
          return;
        }
      }
      status := DropDevice();
      if status != OK {
        return;
      }
      status := AddAtFrequency(requestedHz, previousHz);
    }

    /** Add the device at the requested frequency, or back at the previous. */
    method AddAtFrequency(requestedHz: uint32, previousHz: uint32) returns (status: Err)
      requires Valid() && bus != NULL_HANDLE && device == NULL_HANDLE && ValidFrequency(requestedHz)
      requires previousHz == busConfig.frequencyHz
      modifies this`device, this`busConfig, native
      ensures Valid() && (status == OK ==> device != NULL_HANDLE)
      ensures busConfig.frequencyHz == if status == OK then requestedHz else previousHz
    {
      var added, replacement := native.AddDevice(bus, address, requestedHz);
      status := MapEspErr(added);
      if status == OK {
        device := replacement;
        busConfig := busConfig.(frequencyHz := requestedHz);
        return;
      }
      var restored, rollbackDevice := native.AddDevice(bus, address, previousHz);
      if restored != ESP_OK {
        return MapEspErr(restored);
      }
      device := rollbackDevice;
    }

    method AddDiscovery(target: uint8) returns (status: Err)
      requires Valid() && IsOpen() && discoveryDevice == NULL_HANDLE
      requires target != address && FIRST_ADDRESS <= target <= LAST_ADDRESS
      modifies this`discoveryDevice, this`discoveryAddress, native
      ensures Valid()
      ensures if status == OK then discoveryDevice != NULL_HANDLE && discoveryAddress == target
              else discoveryDevice == NULL_HANDLE
    {
      var added, created := native.AddDevice(bus, target, busConfig.frequencyHz);
      status := MapEspErr(added);
      if status == OK {
        discoveryDevice := created;
        discoveryAddress := target;
      }
    }

    /** Every transaction goes out on a live handle configured for exactly the
        asked address. `used` is that handle, null if none was used. */
    method ReadRegisterAt(target: uint8) returns (status: Err, ghost used: Handle)
      requires Valid()
      modifies this, native
      ensures Valid() && bus == old(bus) && device == old(device) && busConfig == old(busConfig)
      ensures status == OK ==> used != NULL_HANDLE
      ensures used != NULL_HANDLE ==>
        used in native.devices && native.devices[used] == Attached(bus, target, busConfig.frequencyHz)
      ensures target == address ==> discoveryDevice == old(discoveryDevice)
      ensures !old(IsOpen()) || target < FIRST_ADDRESS || target > LAST_ADDRESS ==>
        status == I2C_BUS && used == NULL_HANDLE
    {
      used := NULL_HANDLE;
      if bus == NULL_HANDLE || device == NULL_HANDLE || !hasBusConfig
         || target < FIRST_ADDRESS || target > LAST_ADDRESS {
        return I2C_BUS, used;
      }
      var handle := device;
      if target != address {
        if discoveryDevice != NULL_HANDLE && discoveryAddress != target {
          status := DropDiscovery();
          if status != OK {
            return;
          }
        }
        if discoveryDevice == NULL_HANDLE {
          status := AddDiscovery(target);
          if status != OK {
            return;
          }
        }
        handle := discoveryDevice;
      }
      used := handle;
      var transaction := native.TransmitReceive(handle);
      status := MapTransactionErr(transaction);
    }
  }
}
