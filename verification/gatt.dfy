/**
 * The remote GATT objects the manager looks at: a peripheral with its
 * discovered services, each with its discovered characteristics, and the
 * first-match lookups of the `CBPeripheral` extension.
 *
 * A peripheral is a value here: a snapshot of what the platform stack has
 * discovered on it at the time an event is delivered.
 */
module Gatt {
  import opened Wrappers

  /** A byte of an attribute value or of a file. */
  type Byte = b: int | 0 <= b < 256

  /**
   * A UUID (of a service, a characteristic or a peripheral) as its 128-bit
   * value; `CBUUID` and `UUID` compare by that value.
   */
  type Uuid = u: int | 0 <= u < 0x1_0000_0000_0000_0000_0000_0000_0000_0000

  const MyDesiredServiceId: Uuid := 0x4FAFC201_1FB5_459E_8FCC_C5C9C331914B
  const MyDesiredCharacteristicId: Uuid := 0x62EC0272_3EC5_11EB_B378_0242AC130003

  // The characteristic roles of the peripheral firmware.
  const CommandCharacteristicId: Uuid := 0x62EC0272_3EC5_11EB_B378_0242AC130002
  const StatusCharacteristicId: Uuid := 0x62EC0272_3EC5_11EB_B378_0242AC130003
  const TransferCharacteristicId: Uuid := 0x62EC0272_3EC5_11EB_B378_0242AC130004
  const OtaCharacteristicId: Uuid := 0x62EC0272_3EC5_11EB_B378_0242AC130005
  const ReadCharacteristicId: Uuid := 0x62EC0272_3EC5_11EB_B378_0242AC130006

  datatype Characteristic = Characteristic(uuid: Uuid)

  /** `characteristics` is None until characteristic discovery ran for the service. */
  datatype Service = Service(uuid: Uuid, characteristics: Option<seq<Characteristic>>)

  /** `services` is None until service discovery ran on the peripheral. */
  datatype Peripheral = Peripheral(id: Uuid, services: Option<seq<Service>>)

  /** Index of the first element whose key is `want` (Swift's `first { ... }`). */
  function FirstIndex<T>(s: seq<T>, key: T -> Uuid, want: Uuid): (r: Option<nat>)
    ensures r.Some? ==> r.value < |s| && key(s[r.value]) == want
    ensures r.Some? ==> forall j :: 0 <= j < r.value ==> key(s[j]) != want
    ensures r.None? <==> forall j :: 0 <= j < |s| ==> key(s[j]) != want
  {
    if s == [] then None
    else if key(s[0]) == want then Some(0)
    else match FirstIndex(s[1..], key, want)
      case None => None
      case Some(i) => Some(i + 1)
  }

  function ServiceUuid(s: Service): Uuid { s.uuid }
  function CharacteristicUuid(c: Characteristic): Uuid { c.uuid }
  function PeripheralId(p: Peripheral): Uuid { p.id }

  /** `CBPeripheral.myDesiredService`: the first discovered service with the desired UUID. */
  function MyDesiredService(p: Peripheral): (r: Option<Service>)
    ensures r.Some? ==> p.services.Some? && r.value in p.services.value && r.value.uuid == MyDesiredServiceId
    ensures r.Some? ==> exists i :: 0 <= i < |p.services.value| && p.services.value[i] == r.value &&
                          forall j :: 0 <= j < i ==> p.services.value[j].uuid != MyDesiredServiceId
    ensures r.None? <==> (p.services.None? || forall s :: s in p.services.value ==> s.uuid != MyDesiredServiceId)
  {
    match p.services
    case None => None
    case Some(services) =>
      match FirstIndex(services, ServiceUuid, MyDesiredServiceId)
      case None => None
      case Some(i) => Some(services[i])
  }

  /**
   * `CBPeripheral.myDesiredCharacteristic`: the first characteristic with the
   * desired UUID inside the desired service.
   */
  function MyDesiredCharacteristic(p: Peripheral): (r: Option<Characteristic>)
    ensures r.Some? ==> MyDesiredService(p).Some? && MyDesiredService(p).value.characteristics.Some?
    ensures r.Some? ==> r.value.uuid == MyDesiredCharacteristicId &&
                        r.value in MyDesiredService(p).value.characteristics.value
    ensures r.None? <==> (MyDesiredService(p).None? || MyDesiredService(p).value.characteristics.None? ||
                          forall c :: c in MyDesiredService(p).value.characteristics.value ==>
                                        c.uuid != MyDesiredCharacteristicId)
  {
    match MyDesiredService(p)
    case None => None
    case Some(service) =>
      match service.characteristics
      case None => None
      case Some(cs) =>
        match FirstIndex(cs, CharacteristicUuid, MyDesiredCharacteristicId)
        case None => None
        case Some(i) => Some(cs[i])
  }

  /**
   * `retrievePeripherals(withIdentifiers: [id]).first`: the adapter's known
   * peripheral with that identifier, given the adapter's registry.
   */
  function Retrieve(registry: seq<Peripheral>, id: Uuid): (r: Option<Peripheral>)
    ensures r.Some? ==> r.value in registry && r.value.id == id
    ensures r.None? <==> forall p :: p in registry ==> p.id != id
  {
    match FirstIndex(registry, PeripheralId, id)
    case None => None
    case Some(i) => Some(registry[i])
  }

  /** The index of the last characteristic of `cs` with `uuid`: the one the role assignments leave behind. */
  function LastIndexWith(cs: seq<Characteristic>, uuid: Uuid): (r: Option<nat>)
    ensures r.Some? ==> r.value < |cs| && cs[r.value].uuid == uuid
    ensures r.Some? ==> forall j :: r.value < j < |cs| ==> cs[j].uuid != uuid
    ensures r.None? <==> forall j :: 0 <= j < |cs| ==> cs[j].uuid != uuid
    decreases |cs|
  {
    if cs == [] then None
    else if cs[|cs| - 1].uuid == uuid then Some(|cs| - 1)
    else
      var r := LastIndexWith(cs[..|cs| - 1], uuid);
      assert forall j :: 0 <= j < |cs| - 1 ==> cs[..|cs| - 1][j] == cs[j];
      r
  }

  /** A role variable after the loop over `cs`: the last match, or what it held before. */
  function Assigned(before: Option<Characteristic>, cs: seq<Characteristic>, uuid: Uuid): Option<Characteristic>
  {
    match LastIndexWith(cs, uuid)
    case None => before
    case Some(i) => Some(cs[i])
  }

  /** One more characteristic: the role moves to it when its UUID matches. */
  lemma {:induction false} AssignedStep(before: Option<Characteristic>, cs: seq<Characteristic>, i: nat, uuid: Uuid)
    requires i < |cs|
    ensures Assigned(before, cs[..i + 1], uuid) ==
            if cs[i].uuid == uuid then Some(cs[i]) else Assigned(before, cs[..i], uuid)
  {
    assert cs[..i + 1][..i] == cs[..i];
  }
}
