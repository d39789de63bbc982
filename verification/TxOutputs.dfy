/** Transaction outputs and the total order of BOLT 3, "Transaction Output
    Ordering": value, then script bytes, then CLTV expiry. */
module TxOutputs {

  type Script = seq<nat>

  datatype TxOut = TxOut(value: nat, script: Script)

  /** Byte-wise comparison, a shorter script first on a common prefix. */
  predicate ScriptLe(a: Script, b: Script) {
    a == [] || (b != [] && (a[0] < b[0] || (a[0] == b[0] && ScriptLe(a[1..], b[1..]))))
  }

  lemma {:induction false} ScriptTotal(a: Script, b: Script)
    ensures ScriptLe(a, b) || ScriptLe(b, a)
  {
    if a != [] && b != [] {
      ScriptTotal(a[1..], b[1..]);
    }
  }

  lemma {:induction false} ScriptAntisymmetric(a: Script, b: Script)
    requires ScriptLe(a, b) && ScriptLe(b, a)
    ensures a == b
  {
    if a != [] && b != [] {
      ScriptAntisymmetric(a[1..], b[1..]);
      assert a == [a[0]] + a[1..] && b == [b[0]] + b[1..];
    }
  }

  lemma {:induction false} ScriptTransitive(a: Script, b: Script, c: Script)
    requires ScriptLe(a, b) && ScriptLe(b, c)
    ensures ScriptLe(a, c)
  {
    if a != [] && b != [] && c != [] && a[0] == b[0] == c[0] {
      ScriptTransitive(a[1..], b[1..], c[1..]);
    }
  }

  /** An output with its tie-breaking expiry. */
  datatype Ranked = Ranked(out: TxOut, cltv: nat)

  predicate Le(a: Ranked, b: Ranked) {
    || a.out.value < b.out.value
    || (a.out.value == b.out.value && a.out.script != b.out.script && ScriptLe(a.out.script, b.out.script))
    || (a.out.value == b.out.value && a.out.script == b.out.script && a.cltv <= b.cltv)
  }

  lemma Total(a: Ranked, b: Ranked)
    ensures Le(a, b) || Le(b, a)
  {
    ScriptTotal(a.out.script, b.out.script);
  }

  lemma Antisymmetric(a: Ranked, b: Ranked)
    requires Le(a, b) && Le(b, a)
    ensures a == b
  {
    if a.out.value == b.out.value && a.out.script != b.out.script {
      ScriptAntisymmetric(a.out.script, b.out.script);
    }
  }

  lemma Transitive(a: Ranked, b: Ranked, c: Ranked)
    requires Le(a, b) && Le(b, c)
    ensures Le(a, c)
  {
    if a.out.value == b.out.value == c.out.value && a.out.script != b.out.script && b.out.script != c.out.script {
      ScriptTransitive(a.out.script, b.out.script, c.out.script);
      if a.out.script == c.out.script {
        ScriptAntisymmetric(a.out.script, b.out.script);
      }
    }
  }

  /** The order is by value first, then by script. */
  lemma ByValueThenScript(a: Ranked, b: Ranked)
    requires Le(a, b)
    ensures a.out.value < b.out.value || (a.out.value == b.out.value && ScriptLe(a.out.script, b.out.script))
  {
    ScriptTotal(a.out.script, b.out.script);
  }
}
