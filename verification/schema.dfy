/** The structured description of a Recoil store that the test-file generator
    reads: writable and readable cells, initial-render expectations, recorded
    snapshots and setter cases. Nothing here has behaviour beyond storage; the
    generator trusts its input and checks none of it. */
module Schema {

  datatype Option<T> = None | Some(value: T)

  /** A JSON value as captured from the running store. How it is printed is
      left to the caller's `stringify` (the generator calls `JSON.stringify`). */
  datatype Json =
    | Null
    | Bool(b: bool)
    | Number(n: int)
    | Str(s: string)
    | Arr(items: seq<Json>)
    | Obj(fields: seq<(string, Json)>)

  /** A writable or readable cell, of which the generator only uses the key. */
  datatype Cell = Cell(key: string)

  /** `{ key, newValue }`: an initial-render entry or a selector of a snapshot. */
  datatype Expectation = Expectation(key: string, newValue: Json)

  /** One `state` entry of a snapshot or setter case. Snapshots read `key`,
      `value` and `updated`; setter cases read all four fields. */
  datatype StateEntry = StateEntry(key: string, value: Json, updated: bool, previous: Json)

  datatype Snapshot = Snapshot(state: seq<StateEntry>, selectors: seq<Expectation>)

  /** The `setter` of a setter case: the key invoked and its argument. */
  datatype SetterCall = SetterCall(key: string, newValue: Json)

  /** A setter case; `None` stands for the `null` setter of the input. */
  datatype SetterCase = SetterCase(state: seq<StateEntry>, setter: Option<SetterCall>)

  /** The five arguments of `output`, in order. */
  datatype Input = Input(
    writeables: seq<Cell>,
    readables: seq<Cell>,
    snapshots: seq<Snapshot>,
    initialRender: seq<Expectation>,
    setters: seq<SetterCase>)

  /** The keys of `cells`, in order. */
  function Keys(cells: seq<Cell>): seq<string>
  {
    seq(|cells|, i requires 0 <= i < |cells| => cells[i].key)
  }
}
