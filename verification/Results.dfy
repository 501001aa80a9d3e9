/** Probe results as the agent ships them: the sensor key `did/sid`, the wall
    clock stamp taken when the probe returned, and its verdict. */
module Results {
  datatype Result = Result(key: string, ts: real, ok: bool)

  ghost predicate PerSensorSorted(rs: seq<Result>) {
    forall i, j :: 0 <= i < j < |rs| && rs[i].key == rs[j].key ==> rs[i].ts <= rs[j].ts
  }

  ghost predicate NoRepeats<T(!new)>(s: seq<T>) {
    forall i, j :: 0 <= i < j < |s| ==> s[i] != s[j]
  }
}
