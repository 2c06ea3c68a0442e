/** `validarStand`: sorting the devices of a stand into those that are on and those that are off. */
module Stand {
  import opened Devices
  import opened Seqs

  /** The devices of `s` whose power state is `state`, in the order of `s`. */
  function Select(s: seq<Device>, state: bool): seq<Device>
    reads s
  {
    if s == [] then []
    else
      var d := s[|s| - 1];
      Select(s[..|s| - 1], state) + (if d.IsOn() == state then [d] else [])
  }

  lemma SelectSnoc(s: seq<Device>, d: Device, state: bool)
    ensures Select(s + [d], state) == Select(s, state) + (if d.IsOn() == state then [d] else [])
  {
    AppendTake(s, [d]);
  }

  /** `a` is what is left of `b` after deleting some of its elements. */
  ghost predicate IsSubsequence(a: seq<Device>, b: seq<Device>)
    decreases |b|
  {
    |a| <= |b| &&
    (a == [] ||
     (a[|a| - 1] == b[|b| - 1] && IsSubsequence(a[..|a| - 1], b[..|b| - 1])) ||
     IsSubsequence(a, b[..|b| - 1]))
  }

  /** Everything selected for a state is in that state. */
  lemma {:induction false} SelectMatchesState(s: seq<Device>, state: bool)
    ensures forall i :: 0 <= i < |Select(s, state)| ==> Select(s, state)[i].IsOn() == state
  {
    if s != [] {
      SelectMatchesState(s[..|s| - 1], state);
    }
  }

  /** The on part and the off part together hold every device of the stand exactly as often
      as the stand does. */
  lemma {:induction false} SelectCoversStand(s: seq<Device>)
    ensures multiset(Select(s, true)) + multiset(Select(s, false)) == multiset(s)
  {
    if s != [] {
      var init, d := s[..|s| - 1], s[|s| - 1];
      SelectCoversStand(init);
      SelectSnoc(init, d, true);
      SelectSnoc(init, d, false);
      assert s == init + [d];
    }
  }

  /** There are as many devices in the two parts as on the stand. */
  lemma SelectSizes(s: seq<Device>)
    ensures |Select(s, true)| + |Select(s, false)| == |s|
  {
    SelectCoversStand(s);
    assert |multiset(Select(s, true)) + multiset(Select(s, false))| == |multiset(s)|;
  }

  /** No device is in both parts. */
  lemma SelectDisjoint(s: seq<Device>)
    ensures forall i, j :: 0 <= i < |Select(s, true)| && 0 <= j < |Select(s, false)| ==>
      Select(s, true)[i] != Select(s, false)[j]
  {
    SelectMatchesState(s, true);
    SelectMatchesState(s, false);
  }

  /** Each part keeps the relative order the devices have on the stand. */
  lemma {:induction false} SelectIsSubsequence(s: seq<Device>, state: bool)
    ensures IsSubsequence(Select(s, state), s)
  {
    if s != [] {
      var init := s[..|s| - 1];
      SelectIsSubsequence(init, state);
      var d := s[|s| - 1];
      if d.IsOn() == state {
        assert Select(s, state)[..|Select(s, state)| - 1] == Select(init, state);
      } else {
        assert Select(s, state) == Select(init, state);
      }
    }
  }

  /** `validarStand(stand, encendidos, apagados)`: appends every device of `stand` that is on
      to `encendidos` and every other one to `apagados`, in stand order. When both arguments
      are the same list it receives the whole stand. The devices are not changed. */
  method ValidateStand(stand: seq<Device>, encendidos: DeviceList, apagados: DeviceList)
    modifies encendidos, apagados
    ensures encendidos != apagados ==>
      encendidos.items == old(encendidos.items) + Select(stand, true) &&
      apagados.items == old(apagados.items) + Select(stand, false)
    ensures encendidos == apagados ==> encendidos.items == old(encendidos.items) + stand
  {
    for i := 0 to |stand|
      invariant encendidos != apagados ==>
        encendidos.items == old(encendidos.items) + Select(stand[..i], true) &&
        apagados.items == old(apagados.items) + Select(stand[..i], false)
      invariant encendidos == apagados ==> encendidos.items == old(encendidos.items) + stand[..i]
    {
      var dispositivo := stand[i];
      TakeSnoc(stand, i);
      if dispositivo.IsOn() {
        encendidos.Add(dispositivo);
      } else {
        apagados.Add(dispositivo);
      }
    }
    TakeAll(stand);
  }
}
