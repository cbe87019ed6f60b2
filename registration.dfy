/**
 * What the bots' `start` loops compute: the command hashes are visited in
 * order, those the platform filter accepts are stored under their
 * description, and a later write to the same description replaces an
 * earlier one. Each bot variant supplies its own filter and entry shape.
 */
module Registration {
  import opened Chat

  /** One `add_command` call for `info`, when the filter accepts it. */
  function RegisterOne<V>(m: map<string, V>, info: CommandInfo,
                          accept: CommandInfo -> bool, entryOf: CommandInfo -> V): map<string, V>
  {
    if accept(info) then m[info.description := entryOf(info)] else m
  }

  /** The whole loop of `start` over `infos`, starting from `m`. */
  function RegisterAll<V>(m: map<string, V>, infos: seq<CommandInfo>,
                          accept: CommandInfo -> bool, entryOf: CommandInfo -> V): map<string, V>
    decreases |infos|
  {
    if infos == [] then m
    else RegisterAll(RegisterOne(m, infos[0], accept, entryOf), infos[1..], accept, entryOf)
  }

  /** The `i`-th command is accepted and is registered under `k`. */
  predicate Registers(infos: seq<CommandInfo>, i: int, accept: CommandInfo -> bool, k: string) {
    0 <= i < |infos| && accept(infos[i]) && infos[i].description == k
  }

  /** A description is registered iff it was already there or some accepted command has it. */
  lemma {:induction false} RegisteredKeys<V>(m: map<string, V>, infos: seq<CommandInfo>,
                                             accept: CommandInfo -> bool, entryOf: CommandInfo -> V, k: string)
    ensures k in RegisterAll(m, infos, accept, entryOf) <==>
            k in m || exists i :: Registers(infos, i, accept, k)
    decreases |infos|
  {
    if infos != [] {
      var m' := RegisterOne(m, infos[0], accept, entryOf);
      RegisteredKeys(m', infos[1..], accept, entryOf, k);
      assert k in m' <==> k in m || Registers(infos, 0, accept, k);
      if exists i :: Registers(infos[1..], i, accept, k) {
        var i :| Registers(infos[1..], i, accept, k);
        assert Registers(infos, i + 1, accept, k);
      }
      if exists i :: Registers(infos, i, accept, k) {
        var i :| Registers(infos, i, accept, k);
        if i > 0 { assert Registers(infos[1..], i - 1, accept, k); }
      }
    }
  }

  /** The value under a description is the entry of the last accepted command with it. */
  lemma {:induction false} RegisteredValueIsLastWrite<V>(m: map<string, V>, infos: seq<CommandInfo>,
                                                         accept: CommandInfo -> bool, entryOf: CommandInfo -> V, j: int)
    requires 0 <= j < |infos| && accept(infos[j])
    requires forall i | j < i < |infos| :: !Registers(infos, i, accept, infos[j].description)
    ensures infos[j].description in RegisterAll(m, infos, accept, entryOf)
    ensures RegisterAll(m, infos, accept, entryOf)[infos[j].description] == entryOf(infos[j])
    decreases |infos|
  {
    var m' := RegisterOne(m, infos[0], accept, entryOf);
    var k := infos[j].description;
    if j == 0 {
      forall i | 0 <= i < |infos[1..]| ensures !Registers(infos[1..], i, accept, k) {
        assert !Registers(infos, i + 1, accept, k);
      }
      UnregisteredKeyUnchanged(m', infos[1..], accept, entryOf, k);
    } else {
      forall i | j - 1 < i < |infos[1..]| ensures !Registers(infos[1..], i, accept, k) {
        assert !Registers(infos, i + 1, accept, k);
      }
      RegisteredValueIsLastWrite(m', infos[1..], accept, entryOf, j - 1);
    }
  }

  /** A description no accepted command has keeps whatever it held before. */
  lemma {:induction false} UnregisteredKeyUnchanged<V>(m: map<string, V>, infos: seq<CommandInfo>,
                                                       accept: CommandInfo -> bool, entryOf: CommandInfo -> V, k: string)
    requires forall i | 0 <= i < |infos| :: !Registers(infos, i, accept, k)
    ensures k in RegisterAll(m, infos, accept, entryOf) <==> k in m
    ensures k in m ==> RegisterAll(m, infos, accept, entryOf)[k] == m[k]
    decreases |infos|
  {
    if infos != [] {
      assert !Registers(infos, 0, accept, k);
      forall i | 0 <= i < |infos[1..]| ensures !Registers(infos[1..], i, accept, k) {
        assert !Registers(infos, i + 1, accept, k);
      }
      UnregisteredKeyUnchanged(RegisterOne(m, infos[0], accept, entryOf), infos[1..], accept, entryOf, k);
    }
  }

  /**
   * A property every stored entry has is kept: if the entries already in `m`
   * and the entry of every accepted command satisfy `p`, all entries do.
   */
  lemma {:induction false} RegisteredEntriesSatisfy<V>(m: map<string, V>, infos: seq<CommandInfo>,
                                                       accept: CommandInfo -> bool, entryOf: CommandInfo -> V,
                                                       p: V -> bool)
    requires forall k | k in m :: p(m[k])
    requires forall i | 0 <= i < |infos| && accept(infos[i]) :: p(entryOf(infos[i]))
    ensures forall k | k in RegisterAll(m, infos, accept, entryOf) :: p(RegisterAll(m, infos, accept, entryOf)[k])
    decreases |infos|
  {
    if infos != [] {
      var m' := RegisterOne(m, infos[0], accept, entryOf);
      assert forall i | 0 <= i < |infos[1..]| :: infos[1..][i] == infos[i + 1];
      RegisteredEntriesSatisfy(m', infos[1..], accept, entryOf, p);
    }
  }
}
