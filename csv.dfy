/** The CSV file of `guardarDispositivosCSV` and `cargarDispositivosCSV`, seen as the sequence
    of its lines: one header line, then one `Kind,name,state` record per device. */
module Csv {
  import opened JavaText
  import opened Devices
  import opened Seqs

  datatype Option<T> = None | Some(value: T)

  /** The first line written, and the format the records follow. */
  const Header: string := "Tipo,Modelo/Marca,Estado"

  /** The class name written in a record's first field. */
  function KindTag(k: Kind): string
  {
    match k
    case Phone => "Telefono"
    case Laptop => "ComputadoraPortatil"
  }

  /** The kind whose tag is `tag`, if any: the `tipo.equals(...)` tests of the reader. */
  function ParseKind(tag: string): Option<Kind>
  {
    if tag == "Telefono" then Some(Phone)
    else if tag == "ComputadoraPortatil" then Some(Laptop)
    else None
  }

  /** `ParseKind` recognises exactly the two tags and inverts `KindTag`. */
  lemma ParseKindInvertsTag(tag: string, k: Kind)
    ensures ParseKind(tag) == Some(k) <==> KindTag(k) == tag
    ensures ParseKind(tag) == None <==> tag != KindTag(Phone) && tag != KindTag(Laptop)
  {
  }

  /** The record the writer prints for one device: its three fields joined by commas. */
  function EncodeLine(info: DeviceInfo): string
  {
    Join([KindTag(info.kind), info.name, BooleanToString(info.on)])
  }

  /** The record is the class name, a comma, the name, a comma and "true" or "false". */
  lemma EncodeLineText(info: DeviceInfo)
    ensures EncodeLine(info) == KindTag(info.kind) + "," + info.name + "," + BooleanToString(info.on)
  {
    JoinThree(KindTag(info.kind), info.name, BooleanToString(info.on));
  }

  /** The records for `infos`, one line per device, in order. */
  function EncodeRecords(infos: seq<DeviceInfo>): (lines: seq<string>)
    ensures |lines| == |infos|
  {
    if infos == [] then []
    else EncodeRecords(infos[..|infos| - 1]) + [EncodeLine(infos[|infos| - 1])]
  }

  /** Record `i` is the line for device `i`. */
  lemma {:induction false} EncodeRecordsLines(infos: seq<DeviceInfo>)
    ensures forall i :: 0 <= i < |infos| ==> EncodeRecords(infos)[i] == EncodeLine(infos[i])
  {
    if infos != [] {
      EncodeRecordsLines(infos[..|infos| - 1]);
    }
  }

  lemma EncodeRecordsSnoc(infos: seq<DeviceInfo>, info: DeviceInfo)
    ensures EncodeRecords(infos + [info]) == EncodeRecords(infos) + [EncodeLine(info)]
  {
    AppendTake(infos, [info]);
  }

  /** The whole file for `infos`: the header, then the records. */
  function Encode(infos: seq<DeviceInfo>): seq<string>
  {
    [Header] + EncodeRecords(infos)
  }

  lemma EncodeSnoc(infos: seq<DeviceInfo>, info: DeviceInfo)
    ensures Encode(infos + [info]) == Encode(infos) + [EncodeLine(info)]
  {
    EncodeRecordsSnoc(infos, info);
  }

  /** The device one line gives back, or `None` when the reader skips the line: its comma
      split must have exactly three parts, the first of them a known class name. */
  function DecodeLine(line: string): Option<DeviceInfo>
  {
    var parts := Split(line);
    if |parts| != 3 then None
    else match ParseKind(parts[0])
      case None => None
      case Some(k) => Some(DeviceInfo(k, parts[1], ParseBoolean(parts[2])))
  }

  /** What a reader that handles each line with `f` keeps from `lines`: the values `f` gives,
      in line order, for the lines it does not skip. */
  function Collect<T>(f: string -> Option<T>, lines: seq<string>): (r: seq<T>)
    ensures |r| <= |lines|
  {
    if lines == [] then []
    else
      var kept := match f(lines[|lines| - 1]) case None => [] case Some(v) => [v];
      Collect(f, lines[..|lines| - 1]) + kept
  }

  /** Collecting works line by line: a file cut in two gives the two halves' values. */
  lemma {:induction false} CollectAppend<T>(f: string -> Option<T>, a: seq<string>, b: seq<string>)
    ensures Collect(f, a + b) == Collect(f, a) + Collect(f, b)
  {
    if b == [] {
      assert a + b == a;
    } else {
      CollectAppend(f, a, b[..|b| - 1]);
      assert (a + b)[..|a + b| - 1] == a + b[..|b| - 1];
    }
  }

  /** The devices the reader builds from `lines`, in file order. */
  function Decode(lines: seq<string>): (infos: seq<DeviceInfo>)
    ensures |infos| <= |lines|
  {
    Collect(DecodeLine, lines)
  }

  /** A file cut in two decodes to the two halves' devices. */
  lemma DecodeAppend(a: seq<string>, b: seq<string>)
    ensures Decode(a + b) == Decode(a) + Decode(b)
  {
    CollectAppend(DecodeLine, a, b);
  }

  /** One line decodes to its own device, or to none when it is skipped. */
  lemma DecodeSingle(line: string)
    ensures Decode([line]) == match DecodeLine(line) case None => [] case Some(info) => [info]
  {
    assert [line][..0] == [];
  }

  /** A line whose split has other than three parts, or whose first part is not a class name,
      is skipped without effect on the devices read from the lines around it. */
  lemma MalformedLineSkipped(before: seq<string>, line: string, after: seq<string>)
    requires |Split(line)| != 3 || (Split(line)[0] != "Telefono" && Split(line)[0] != "ComputadoraPortatil")
    ensures Decode(before + [line] + after) == Decode(before) + Decode(after)
  {
    assert DecodeLine(line) == None;
    DecodeAppend(before + [line], after);
    DecodeAppend(before, [line]);
    DecodeSingle(line);
  }

  /** A line with three parts and a known class name adds exactly one device, between the
      devices of the lines before and after it: its kind from the first part, its name from
      the second, and on exactly when the third is "true" in any mix of cases. */
  lemma AcceptedLineKept(before: seq<string>, line: string, after: seq<string>, k: Kind)
    requires |Split(line)| == 3 && Split(line)[0] == KindTag(k)
    ensures Decode(before + [line] + after) ==
      Decode(before) + [DeviceInfo(k, Split(line)[1], EqualsIgnoreCase(Split(line)[2], "true"))] + Decode(after)
  {
    ParseKindInvertsTag(Split(line)[0], k);
    assert DecodeLine(line) == Some(DeviceInfo(k, Split(line)[1], ParseBoolean(Split(line)[2])));
    DecodeAppend(before + [line], after);
    DecodeAppend(before, [line]);
    DecodeSingle(line);
  }

  /** The header line is one of the skipped lines: it has three parts, but "Tipo" is no class. */
  lemma HeaderSkipped()
    ensures Split(Header) == ["Tipo", "Modelo/Marca", "Estado"]
    ensures DecodeLine(Header) == None
  {
    var p := ["Tipo", "Modelo/Marca", "Estado"];
    assert Header == Join(p);
    SplitJoin(p);
  }

  /** A record cut short after the name, `Kind,name,`, has no third part once the trailing
      empty piece is dropped, and is skipped. */
  lemma TrailingCommaAfterNameSkipped(k: Kind, name: string)
    requires ',' !in name
    ensures |Split(KindTag(k) + "," + name + ",")| < 3
    ensures DecodeLine(KindTag(k) + "," + name + ",") == None
  {
    var tag := KindTag(k);
    var line := tag + "," + name + ",";
    var p := [tag, name, ""];
    JoinThree(tag, name, "");
    assert line == Join(p);
    SplitOfJoin(p);
    assert DropTrailingEmpty(p) == DropTrailingEmpty([tag, name]);
  }

  lemma SplitTrailingComma(a: string, b: string, c: string)
    requires ',' !in a && ',' !in b && ',' !in c && c != []
    ensures Split(a + "," + b + "," + c + ",") == [a, b, c]
  {
    var p := [a, b, c, ""];
    JoinFour(a, b, c, "");
    assert a + "," + b + "," + c + "," == Join(p);
    SplitOfJoin(p);
    assert p[..3] == [a, b, c];
  }

  /** A record followed by one more comma, `Kind,name,state,`, loses only the empty piece
      after that comma and is read like `Kind,name,state`. */
  lemma TrailingCommaAfterStateKept(k: Kind, name: string, state: string)
    requires ',' !in name && ',' !in state && state != []
    ensures Split(KindTag(k) + "," + name + "," + state + ",") == [KindTag(k), name, state]
    ensures DecodeLine(KindTag(k) + "," + name + "," + state + ",") ==
      Some(DeviceInfo(k, name, ParseBoolean(state)))
  {
    SplitTrailingComma(KindTag(k), name, state);
    ParseKindInvertsTag(KindTag(k), k);
  }

  /** Each accepted line's device sits in the decoded list right after the devices of the
      lines before it. */
  lemma DecodeOrder(lines: seq<string>, i: nat)
    requires i < |lines| && DecodeLine(lines[i]).Some?
    ensures |Decode(lines[..i])| < |Decode(lines)|
    ensures Decode(lines)[|Decode(lines[..i])|] == DecodeLine(lines[i]).value
  {
    assert lines == lines[..i] + [lines[i]] + lines[i + 1..];
    DecodeAppend(lines[..i] + [lines[i]], lines[i + 1..]);
    DecodeAppend(lines[..i], [lines[i]]);
    DecodeSingle(lines[i]);
  }

  /** A record whose name has no comma splits back into its three fields. */
  lemma EncodeLineFields(info: DeviceInfo)
    requires ',' !in info.name
    ensures Split(EncodeLine(info)) == [KindTag(info.kind), info.name, BooleanToString(info.on)]
  {
    SplitJoin([KindTag(info.kind), info.name, BooleanToString(info.on)]);
  }

  /** A record whose name has no comma reads back as the device it was written from. */
  lemma DecodeEncodeLine(info: DeviceInfo)
    requires ',' !in info.name
    ensures DecodeLine(EncodeLine(info)) == Some(info)
  {
    EncodeLineFields(info);
  }

  lemma DecodeEncodedLine(info: DeviceInfo)
    requires ',' !in info.name
    ensures Decode([EncodeLine(info)]) == [info]
  {
    DecodeEncodeLine(info);
    DecodeSingle(EncodeLine(info));
  }

  lemma {:induction false} DecodeRecords(infos: seq<DeviceInfo>)
    requires forall i :: 0 <= i < |infos| ==> ',' !in infos[i].name
    ensures Decode(EncodeRecords(infos)) == infos
  {
    if infos != [] {
      var init, last := infos[..|infos| - 1], infos[|infos| - 1];
      var line := EncodeLine(last);
      assert forall i :: 0 <= i < |init| ==> ',' !in init[i].name by {
        forall i | 0 <= i < |init| ensures ',' !in init[i].name {
          assert init[i] == infos[i];
        }
      }
      DecodeRecords(init);
      assert EncodeRecords(infos) == EncodeRecords(init) + [line];
      DecodeAppend(EncodeRecords(init), [line]);
      DecodeEncodedLine(last);
      Snoc(infos);
    }
  }

  /** Reading back the file written for `infos` gives the same devices in the same order,
      provided no name contains a comma. */
  lemma RoundTrip(infos: seq<DeviceInfo>)
    requires forall i :: 0 <= i < |infos| ==> ',' !in infos[i].name
    ensures Decode(Encode(infos)) == infos
  {
    DecodeAppend([Header], EncodeRecords(infos));
    DecodeSingle(Header);
    HeaderSkipped();
    DecodeRecords(infos);
  }

  /** Decoding one more line adds that line's device, if it has one, at the end. */
  lemma DecodeSnoc(lines: seq<string>, n: nat)
    requires n < |lines|
    ensures Decode(lines[..n + 1]) ==
      Decode(lines[..n]) + match DecodeLine(lines[n]) case None => [] case Some(info) => [info]
  {
    TakeSnoc(lines, n);
    DecodeAppend(lines[..n], [lines[n]]);
    DecodeSingle(lines[n]);
  }

  lemma SaveStep(stand: seq<Device>, i: nat)
    requires i < |stand|
    ensures Encode(Infos(stand[..i + 1])) == Encode(Infos(stand[..i])) + [EncodeLine(stand[i].Info())]
  {
    InfosSnoc(stand[..i], stand[i]);
    TakeSnoc(stand, i);
    EncodeSnoc(Infos(stand[..i]), stand[i].Info());
  }

  /** `guardarDispositivosCSV` without the file: the lines the writer prints for `stand`. */
  method SaveLines(stand: seq<Device>) returns (lines: seq<string>)
    ensures lines == Encode(Infos(stand))
  {
    lines := [Header];
    for i := 0 to |stand|
      invariant lines == Encode(Infos(stand[..i]))
    {
      var dispositivo := stand[i];
      SaveStep(stand, i);
      lines := lines + [EncodeLine(dispositivo.Info())];
    }
    TakeAll(stand);
  }

  /** The body of the reader's loop for one line: the new device that line describes, or
      `None` when the line is skipped. */
  method ReadRecord(line: string) returns (device: Option<Device>)
    ensures device.None? <==> DecodeLine(line).None?
    ensures device.Some? ==> fresh(device.value) && device.value.Info() == DecodeLine(line).value
  {
    device := None;
    var parts := Split(line);
    if |parts| == 3 {
      var tipo := parts[0];
      var modeloMarca := parts[1];
      var estado := ParseBoolean(parts[2]);
      if tipo == "Telefono" {
        var telefono := new Device(Phone, modeloMarca);
        if estado {
          telefono.TurnOn();
        }
        device := Some(telefono);
      } else if tipo == "ComputadoraPortatil" {
        var laptop := new Device(Laptop, modeloMarca);
        if estado {
          laptop.TurnOn();
        }
        device := Some(laptop);
      }
    }
  }

  /** Device `i` of `s` shows `infos[i]`. */
  ghost predicate Shows(s: seq<Device>, infos: seq<DeviceInfo>)
    reads s
  {
    |s| == |infos| && forall i :: 0 <= i < |s| ==> s[i].Info() == infos[i]
  }

  lemma ShowsSnoc(s: seq<Device>, infos: seq<DeviceInfo>, d: Device)
    requires Shows(s, infos)
    ensures Shows(s + [d], infos + [d.Info()])
  {
  }

  /** No device occurs twice in `s`. */
  predicate Distinct(s: seq<Device>)
  {
    forall i, j :: 0 <= i < j < |s| ==> s[i] != s[j]
  }

  lemma DistinctSnoc(s: seq<Device>, d: Device)
    requires Distinct(s) && d !in s
    ensures Distinct(s + [d])
  {
  }

  /** One pass of the reader's loop: the device the line describes, if any, is appended. */
  method LoadStep(stand: seq<Device>, ghost decoded: seq<DeviceInfo>, line: string)
    returns (next: seq<Device>, ghost nextDecoded: seq<DeviceInfo>)
    requires Shows(stand, decoded) && Distinct(stand)
    ensures nextDecoded == decoded + match DecodeLine(line) case None => [] case Some(info) => [info]
    ensures Shows(next, nextDecoded) && Distinct(next)
    ensures |stand| <= |next| && forall i :: 0 <= i < |stand| ==> next[i] == stand[i]
    ensures forall d :: d in next ==> d in stand || fresh(d)
  {
    next, nextDecoded := stand, decoded;
    var device := ReadRecord(line);
    if device.Some? {
      ShowsSnoc(stand, decoded, device.value);
      DistinctSnoc(stand, device.value);
      next := stand + [device.value];
      nextDecoded := decoded + [device.value.Info()];
    }
  }

  /** `cargarDispositivosCSV` without the file: the devices the reader builds from `lines`,
      in the order of the lines they come from, each a new object of its own. */
  method LoadLines(lines: seq<string>) returns (stand: seq<Device>)
    ensures Infos(stand) == Decode(lines)
    ensures forall d :: d in stand ==> fresh(d)
    ensures Distinct(stand)
  {
    stand := [];
    ghost var decoded: seq<DeviceInfo> := [];
    var n := 0;
    while n < |lines|
      invariant 0 <= n <= |lines|
      invariant decoded == Decode(lines[..n])
      invariant Shows(stand, decoded) && Distinct(stand)
      invariant forall d :: d in stand ==> fresh(d)
    {
      DecodeSnoc(lines, n);
      stand, decoded := LoadStep(stand, decoded, lines[n]);
      n := n + 1;
    }
    TakeAll(lines);
    InfosPointwise(stand, decoded);
  }
}
