/** Ideal authenticated encryption: a ciphertext opens under exactly the key, the nonce and the
    associated data it was sealed with. Also the delimited texts used as associated data. */
module Aead {
  import opened Options

  datatype Cipher<K(==), P> = Sealed(key: K, iv: string, aad: string, plain: P) | Noise

  function Open<K(==), P>(key: K, iv: string, aad: string, c: Cipher<K, P>): (plain: Option<P>)
    ensures plain.Some? ==> c == Sealed(key, iv, aad, plain.value)
    ensures c.Sealed? && c.key == key && c.iv == iv && c.aad == aad ==> plain == Some(c.plain)
  {
    match c
    case Noise => None
    case Sealed(k, i, a, p) => if k == key && i == iv && a == aad then Some(p) else None
  }

  /** Texts joined by a bar split uniquely at the last bar. */
  lemma LastBar(a: string, x: string, b: string, y: string)
    requires '|' !in x && '|' !in y && a + "|" + x == b + "|" + y
    ensures a == b && x == y
  {
    var s := a + "|" + x;
    assert s[|a|] == '|' && s[|b|] == '|';
    assert forall k :: |a| < k < |s| ==> s[k] == x[k - |a| - 1];
    assert forall k :: |b| < k < |s| ==> s[k] == y[k - |b| - 1];
    assert |a| == |b|;
    assert a == s[..|a|] && b == s[..|b|];
    assert x == s[|a| + 1..] && y == s[|b| + 1..];
  }
}
