/** The two device classes of the store, `Telefono` and `ComputadoraPortatil`, as one class
    with a kind tag, and the `ArrayList` the store keeps them in. */
module Devices {
  import opened Seqs

  /** Which of the two classes implementing `DispositivoElectronico` a device is. */
  datatype Kind = Phone | Laptop

  /** What can be observed of a device at one moment: its class, its name (the model of a
      phone, the brand of a laptop) and whether it is switched on. */
  datatype DeviceInfo = DeviceInfo(kind: Kind, name: string, on: bool)

  class Device {
    const kind: Kind
    const name: string
    var poweredOn: bool

    /** `new Telefono(modelo)` / `new ComputadoraPortatil(marca)`: starts switched off. */
    constructor (kind: Kind, name: string)
      ensures this.kind == kind && this.name == name
      ensures !IsOn()
    {
      this.kind := kind;
      this.name := name;
      poweredOn := false;
    }

    /** `validarEstado()` */
    function IsOn(): bool
      reads this
    {
      poweredOn
    }

    function Info(): DeviceInfo
      reads this
    {
      DeviceInfo(kind, name, poweredOn)
    }

    /** `encender()`: the device is on afterwards, whatever it was before. */
    method TurnOn()
      modifies this
      ensures IsOn()
      ensures Info() == old(Info()).(on := true)
    {
      poweredOn := true;
    }

    /** `apagar()`: the device is off afterwards, whatever it was before. */
    method TurnOff()
      modifies this
      ensures !IsOn()
      ensures Info() == old(Info()).(on := false)
    {
      poweredOn := false;
    }
  }

  /** What each device of `s` shows at this moment, in order. */
  function Infos(s: seq<Device>): (r: seq<DeviceInfo>)
    reads s
    ensures |r| == |s|
  {
    if s == [] then [] else Infos(s[..|s| - 1]) + [s[|s| - 1].Info()]
  }

  lemma InfosSnoc(s: seq<Device>, d: Device)
    ensures Infos(s + [d]) == Infos(s) + [d.Info()]
  {
    AppendTake(s, [d]);
  }

  /** Element `i` of `Infos(s)` is what device `i` shows. */
  lemma {:induction false} InfosAt(s: seq<Device>)
    ensures forall i :: 0 <= i < |s| ==> Infos(s)[i] == s[i].Info()
  {
    if s != [] {
      InfosAt(s[..|s| - 1]);
    }
  }

  /** `Infos` is determined by what each device shows. */
  lemma {:induction false} InfosPointwise(s: seq<Device>, infos: seq<DeviceInfo>)
    requires |s| == |infos| && forall i :: 0 <= i < |s| ==> s[i].Info() == infos[i]
    ensures Infos(s) == infos
  {
    if s != [] {
      InfosPointwise(s[..|s| - 1], infos[..|infos| - 1]);
      Snoc(infos);
    }
  }

  /** A `List<DispositivoElectronico>` backed by an `ArrayList`; only `add` is used. */
  class DeviceList {
    var items: seq<Device>

    constructor ()
      ensures items == []
    {
      items := [];
    }

    method Add(d: Device)
      modifies this
      ensures items == old(items) + [d]
    {
      items := items + [d];
    }
  }
}
