/** Shared by every module. */
module Prelude {
  datatype Option<+T> = None | Some(value: T)

  // Row ids are opaque: only their equality matters.
  type Id = int

  // ---------- Text joined by colons ----------

  lemma FirstColon(a: string, s: string, b: string, t: string)
    requires ':' !in a && ':' !in b && a + ":" + s == b + ":" + t
    ensures a == b && s == t
  {
    var k := a + ":" + s;
    assert k[|a|] == ':' && k[|b|] == ':';
    assert forall i | 0 <= i < |a| :: k[i] == a[i];
    assert forall i | 0 <= i < |b| :: k[i] == b[i];
    assert |a| == |b|;
    assert a == k[..|a|] == b && s == k[|a| + 1..] == t;
  }

  lemma LastColon(s: string, a: string, t: string, b: string)
    requires ':' !in a && ':' !in b && s + ":" + a == t + ":" + b
    ensures s == t && a == b
  {
    var k := s + ":" + a;
    assert k[|s|] == ':' && k[|t|] == ':';
    assert forall i | |s| < i < |k| :: k[i] == a[i - |s| - 1];
    assert forall i | |t| < i < |k| :: k[i] == b[i - |t| - 1];
    assert |s| == |t|;
    assert s == k[..|s|] == t && a == k[|s| + 1..] == b;
  }
}
