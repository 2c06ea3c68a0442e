/** The fixed scenario `ElectroTechStore.main` runs, with the console output and the file left
    out: four devices, two of them switched on, sorted into on and off, written and read back. */
module Store {
  import opened Devices
  import opened Stand
  import opened Csv

  /** What the four devices of `main` show once the first phone and the second laptop have
      been switched on. */
  function StandInfos(phone1: string, phone2: string, laptop1: string, laptop2: string): (r: seq<DeviceInfo>)
    ensures |r| == 4
  {
    [DeviceInfo(Phone, phone1, true), DeviceInfo(Phone, phone2, false),
     DeviceInfo(Laptop, laptop1, false), DeviceInfo(Laptop, laptop2, true)]
  }

  lemma SelectOfFour(a: Device, b: Device, c: Device, d: Device, state: bool)
    ensures Select([a, b, c, d], state) ==
      (if a.IsOn() == state then [a] else []) + (if b.IsOn() == state then [b] else []) +
      (if c.IsOn() == state then [c] else []) + (if d.IsOn() == state then [d] else [])
  {
    var s1: seq<Device> := [a];
    var s2 := s1 + [b];
    var s3 := s2 + [c];
    assert [] + [a] == s1;
    assert [a, b, c, d] == s3 + [d];
    SelectSnoc([], a, state);
    SelectSnoc(s1, b, state);
    SelectSnoc(s2, c, state);
    SelectSnoc(s3, d, state);
  }

  lemma InfosOfFour(a: Device, b: Device, c: Device, d: Device)
    ensures Infos([a, b, c, d]) == [a.Info(), b.Info(), c.Info(), d.Info()]
  {
    var s1: seq<Device> := [a];
    var s2 := s1 + [b];
    var s3 := s2 + [c];
    assert [] + [a] == s1;
    assert [a, b, c, d] == s3 + [d];
    InfosSnoc([], a);
    InfosSnoc(s1, b);
    InfosSnoc(s2, c);
    InfosSnoc(s3, d);
  }

  lemma InfosOfTwo(a: Device, b: Device)
    ensures Infos([a, b]) == [a.Info(), b.Info()]
  {
    assert [] + [a] == [a];
    assert [a, b] == [a] + [b];
    InfosSnoc([], a);
    InfosSnoc([a], b);
  }

  /** Reading back what was written for the stand of `main` gives its devices again. */
  lemma StandRoundTrip(phone1: string, phone2: string, laptop1: string, laptop2: string)
    requires ',' !in phone1 && ',' !in phone2 && ',' !in laptop1 && ',' !in laptop2
    ensures Decode(Encode(StandInfos(phone1, phone2, laptop1, laptop2))) == StandInfos(phone1, phone2, laptop1, laptop2)
  {
    var infos := StandInfos(phone1, phone2, laptop1, laptop2);
    assert forall i :: 0 <= i < |infos| ==> ',' !in infos[i].name;
    RoundTrip(infos);
  }

  /** The file written for the stand of `main`: the header and the four records, in order. */
  lemma StandLines(phone1: string, phone2: string, laptop1: string, laptop2: string)
    ensures Encode(StandInfos(phone1, phone2, laptop1, laptop2)) ==
      [Header, "Telefono" + "," + phone1 + "," + "true", "Telefono" + "," + phone2 + "," + "false",
       "ComputadoraPortatil" + "," + laptop1 + "," + "false", "ComputadoraPortatil" + "," + laptop2 + "," + "true"]
  {
    var infos := StandInfos(phone1, phone2, laptop1, laptop2);
    EncodeRecordsLines(infos);
    EncodeLineText(infos[0]);
    EncodeLineText(infos[1]);
    EncodeLineText(infos[2]);
    EncodeLineText(infos[3]);
  }

  /** The stand of `main`: two phones and two laptops, the first phone and the second laptop
      switched on. */
  method MainStand(phone1: string, phone2: string, laptop1: string, laptop2: string)
    returns (stand: seq<Device>)
    ensures Infos(stand) == StandInfos(phone1, phone2, laptop1, laptop2)
    ensures |stand| == 4
    ensures stand[0].Info() == DeviceInfo(Phone, phone1, true) && stand[1].Info() == DeviceInfo(Phone, phone2, false)
    ensures stand[2].Info() == DeviceInfo(Laptop, laptop1, false) && stand[3].Info() == DeviceInfo(Laptop, laptop2, true)
  {
    var telefono1 := new Device(Phone, phone1);
    var telefono2 := new Device(Phone, phone2);
    var portatil1 := new Device(Laptop, laptop1);
    var portatil2 := new Device(Laptop, laptop2);
    telefono1.TurnOn();
    portatil2.TurnOn();
    stand := [telefono1, telefono2, portatil1, portatil2];
    InfosOfFour(telefono1, telefono2, portatil1, portatil2);
  }

  /** The first half of `main`: `validarStand` sorts the stand into two new lists. */
  method SortMainStand(stand: seq<Device>, phone1: string, phone2: string, laptop1: string, laptop2: string)
    returns (on: seq<DeviceInfo>, off: seq<DeviceInfo>)
    requires |stand| == 4
    requires stand[0].Info() == DeviceInfo(Phone, phone1, true) && stand[1].Info() == DeviceInfo(Phone, phone2, false)
    requires stand[2].Info() == DeviceInfo(Laptop, laptop1, false) && stand[3].Info() == DeviceInfo(Laptop, laptop2, true)
    ensures on == [DeviceInfo(Phone, phone1, true), DeviceInfo(Laptop, laptop2, true)]
    ensures off == [DeviceInfo(Phone, phone2, false), DeviceInfo(Laptop, laptop1, false)]
  {
    var encendidos := new DeviceList();
    var apagados := new DeviceList();
    ValidateStand(stand, encendidos, apagados);
    assert stand == [stand[0], stand[1], stand[2], stand[3]];
    SelectOfFour(stand[0], stand[1], stand[2], stand[3], true);
    SelectOfFour(stand[0], stand[1], stand[2], stand[3], false);
    assert encendidos.items == [stand[0], stand[3]] && apagados.items == [stand[1], stand[2]];
    on := Infos(encendidos.items);
    off := Infos(apagados.items);
    InfosOfTwo(stand[0], stand[3]);
    InfosOfTwo(stand[1], stand[2]);
  }

  /** The second half of `main`: the stand is written out and read back. */
  method SaveAndReload(stand: seq<Device>, phone1: string, phone2: string, laptop1: string, laptop2: string)
    returns (lines: seq<string>, reloaded: seq<DeviceInfo>)
    requires ',' !in phone1 && ',' !in phone2 && ',' !in laptop1 && ',' !in laptop2
    requires Infos(stand) == StandInfos(phone1, phone2, laptop1, laptop2)
    ensures lines == Encode(StandInfos(phone1, phone2, laptop1, laptop2))
    ensures reloaded == StandInfos(phone1, phone2, laptop1, laptop2)
  {
    lines := SaveLines(stand);
    var loaded := LoadLines(lines);
    reloaded := Infos(loaded);
    StandRoundTrip(phone1, phone2, laptop1, laptop2);
  }

  /** `main` without its console output, for any four comma-free names: the stand is sorted
      into `encendidos` and `apagados`, saved, and loaded back unchanged. */
  method StoreScenario(phone1: string, phone2: string, laptop1: string, laptop2: string)
    returns (on: seq<DeviceInfo>, off: seq<DeviceInfo>, lines: seq<string>, reloaded: seq<DeviceInfo>)
    requires ',' !in phone1 && ',' !in phone2 && ',' !in laptop1 && ',' !in laptop2
    ensures on == [DeviceInfo(Phone, phone1, true), DeviceInfo(Laptop, laptop2, true)]
    ensures off == [DeviceInfo(Phone, phone2, false), DeviceInfo(Laptop, laptop1, false)]
    ensures lines == Encode(StandInfos(phone1, phone2, laptop1, laptop2))
    ensures reloaded == StandInfos(phone1, phone2, laptop1, laptop2)
  {
    var stand := MainStand(phone1, phone2, laptop1, laptop2);
    InfosOfFour(stand[0], stand[1], stand[2], stand[3]);
    assert stand == [stand[0], stand[1], stand[2], stand[3]];
    on, off := SortMainStand(stand, phone1, phone2, laptop1, laptop2);
    lines, reloaded := SaveAndReload(stand, phone1, phone2, laptop1, laptop2);
  }

  /** The text of the file `main` writes, line by line. */
  function MainFile(): seq<string>
  {
    [Header, "Telefono,iPhone X,true", "Telefono,Samsung Galaxy S21,false",
     "ComputadoraPortatil,Dell XPS 13,false", "ComputadoraPortatil,HP Spectre x360,true"]
  }

  /** The four records of `main`, spelled out. */
  lemma RecordText1()
    ensures "Telefono" + "," + "iPhone X" + "," + "true" == "Telefono,iPhone X,true"
  {
  }

  lemma RecordText2()
    ensures "Telefono" + "," + "Samsung Galaxy S21" + "," + "false" == "Telefono,Samsung Galaxy S21,false"
  {
  }

  lemma RecordText3()
    ensures "ComputadoraPortatil" + "," + "Dell XPS 13" + "," + "false" == "ComputadoraPortatil,Dell XPS 13,false"
  {
  }

  lemma RecordText4()
    ensures "ComputadoraPortatil" + "," + "HP Spectre x360" + "," + "true" == "ComputadoraPortatil,HP Spectre x360,true"
  {
  }

  /** Encoding the stand of `main` gives exactly that text. */
  lemma MainLines()
    ensures Encode(StandInfos("iPhone X", "Samsung Galaxy S21", "Dell XPS 13", "HP Spectre x360")) == MainFile()
  {
    StandLines("iPhone X", "Samsung Galaxy S21", "Dell XPS 13", "HP Spectre x360");
    RecordText1();
    RecordText2();
    RecordText3();
    RecordText4();
  }

  /** `main` itself, with the names it uses. */
  method RunStore() returns (on: seq<DeviceInfo>, off: seq<DeviceInfo>, lines: seq<string>, reloaded: seq<DeviceInfo>)
    ensures on == [DeviceInfo(Phone, "iPhone X", true), DeviceInfo(Laptop, "HP Spectre x360", true)]
    ensures off == [DeviceInfo(Phone, "Samsung Galaxy S21", false), DeviceInfo(Laptop, "Dell XPS 13", false)]
    ensures lines == Encode(StandInfos("iPhone X", "Samsung Galaxy S21", "Dell XPS 13", "HP Spectre x360"))
    ensures lines == MainFile()
    ensures reloaded == StandInfos("iPhone X", "Samsung Galaxy S21", "Dell XPS 13", "HP Spectre x360")
  {
    on, off, lines, reloaded := StoreScenario("iPhone X", "Samsung Galaxy S21", "Dell XPS 13", "HP Spectre x360");
    MainLines();
  }
}
