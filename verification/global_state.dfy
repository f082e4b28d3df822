/**
 * An application's global state as the front end reads it from the node:
 * a list of key/value entries, searched with `find` (first match) or walked
 * with `forEach` (last match wins). Keys are shown decoded from base64.
 */
module GlobalState {
  import opened Wrappers
  import opened Bytes

  datatype TealValue = UintValue(n: u64) | BytesValue(b: seq<byte>) {
    /** `value.uint`, which the node reports as 0 for a byte-slice entry. */
    function Uint(): u64 {
      if UintValue? then n else 0
    }

    /** `value.bytes`, empty for an integer entry. */
    function Bytes(): seq<byte> {
      if BytesValue? then b else []
    }
  }

  datatype StateEntry = StateEntry(key: string, value: TealValue)

  predicate HasKey(gs: seq<StateEntry>, key: string) {
    exists i :: 0 <= i < |gs| && gs[i].key == key
  }

  /** No key appears twice, as in every state the node reports. */
  predicate UniqueKeys(gs: seq<StateEntry>) {
    forall i, j :: 0 <= i < j < |gs| ==> gs[i].key != gs[j].key
  }

  /** `gs.find(s => s.key === key)`: the value of the first entry with that key. */
  function Find(gs: seq<StateEntry>, key: string): (r: Option<TealValue>)
    ensures r.Some? <==> HasKey(gs, key)
    ensures r.Some? ==> exists i :: 0 <= i < |gs| && gs[i].key == key && gs[i].value == r.value
  {
    if gs == [] then None
    else if gs[0].key == key then Some(gs[0].value)
    else
      var r := Find(gs[1..], key);
      assert HasKey(gs, key) ==> HasKey(gs[1..], key) by {
        if HasKey(gs, key) {
          var i :| 0 <= i < |gs| && gs[i].key == key;
          assert gs[1..][i - 1].key == key;
        }
      }
      assert r.Some? ==> exists i :: 0 <= i < |gs| && gs[i].key == key && gs[i].value == r.value by {
        if r.Some? {
          var i :| 0 <= i < |gs[1..]| && gs[1..][i].key == key && gs[1..][i].value == r.value;
          assert gs[i + 1].key == key && gs[i + 1].value == r.value;
        }
      }
      r
  }

  /** The `getGlobalInt`/`getValue` helpers: the entry's `value.uint`, or 0 when the key is absent. */
  function GetInt(gs: seq<StateEntry>, key: string): (r: u64)
    ensures !HasKey(gs, key) ==> r == 0
    ensures forall i :: 0 <= i < |gs| && gs[i].key == key && gs[i].value.UintValue? && UniqueKeys(gs) ==> r == gs[i].value.n
  {
    match Find(gs, key)
    case Some(v) => v.Uint()
    case None => 0
  }

  /** The `getGlobalBytes` helper: the entry's `value.bytes`, or empty when the key is absent. */
  function GetBytes(gs: seq<StateEntry>, key: string): (r: seq<byte>)
    ensures !HasKey(gs, key) ==> r == []
    ensures forall i :: 0 <= i < |gs| && gs[i].key == key && gs[i].value.BytesValue? && UniqueKeys(gs) ==> r == gs[i].value.b
  {
    match Find(gs, key)
    case Some(v) => v.Bytes()
    case None => []
  }

  /**
   * The variable a `forEach` over the entries leaves behind when it starts at
   * `init` and overwrites it with `value.uint` at every entry with that key.
   */
  function LastUint(gs: seq<StateEntry>, key: string, init: nat): (r: nat)
    ensures !HasKey(gs, key) ==> r == init
  {
    if gs == [] then init
    else if gs[|gs| - 1].key == key then gs[|gs| - 1].value.Uint()
    else
      assert HasKey(gs[..|gs| - 1], key) <== HasKey(gs, key) by {
        if HasKey(gs, key) {
          var i :| 0 <= i < |gs| && gs[i].key == key;
          assert gs[..|gs| - 1][i].key == key;
        }
      }
      LastUint(gs[..|gs| - 1], key, init)
  }

  /** With unique keys, walking all entries and searching for the first one agree. */
  lemma {:induction false} LastUintIsFind(gs: seq<StateEntry>, key: string, init: nat)
    requires UniqueKeys(gs)
    ensures LastUint(gs, key, init) == match Find(gs, key) case Some(v) => v.Uint() case None => init
  {
    if gs != [] {
      var n := |gs| - 1;
      var init' := gs[..n];
      assert UniqueKeys(init');
      if gs[n].key == key {
        var v := Find(gs, key).value;
        var i :| 0 <= i < |gs| && gs[i].key == key && gs[i].value == v;
        assert i == n;
      } else {
        LastUintIsFind(init', key, init);
        FindPrefix(gs, key);
      }
    }
  }

  /** Searching ignores a last entry with another key. */
  lemma {:induction false} FindPrefix(gs: seq<StateEntry>, key: string)
    requires gs != [] && gs[|gs| - 1].key != key
    ensures Find(gs, key) == Find(gs[..|gs| - 1], key)
  {
    if |gs| > 1 && gs[0].key != key {
      assert gs[1..][..|gs[1..]| - 1] == gs[..|gs| - 1][1..];
      FindPrefix(gs[1..], key);
    }
  }
}
