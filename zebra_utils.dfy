/**
 * Key derivation: the string under which a converter for the ordered class
 * pair (A, B) is stored, `A.getName() + "_" + B.getName()`.
 */
module ZebraUtils {
  import opened Runtime

  /** The registry key of the ordered class pair (a, b). The key is laid out
      as the source name, one '_' and the destination name. */
  function MapperKey(a: TypeId, b: TypeId): (k: string)
    ensures |k| == |a.name| + 1 + |b.name|
    ensures k[..|a.name|] == a.name && k[|a.name|] == '_' && k[|a.name| + 1..] == b.name
  {
    a.name + "_" + b.name
  }

  /** A class name in which '_' does not occur. */
  predicate NoUnderscore(s: string) {
    forall i :: 0 <= i < |s| ==> s[i] != '_'
  }

  /** The first '_' of a key whose source name is '_'-free sits right after
      that name, so the key determines both names; the destination names
      may contain '_'. */
  lemma KeyInjective(a: TypeId, b: TypeId, c: TypeId, d: TypeId)
    requires NoUnderscore(a.name) && NoUnderscore(c.name)
    requires MapperKey(a, b) == MapperKey(c, d)
    ensures a.name == c.name && b.name == d.name
  {
  }

  /** Symmetrically, the last '_' of a key whose destination name is
      '_'-free sits right before that name, so '_'-free destination names
      are just as sufficient; the source names may then contain '_'. */
  lemma KeyInjectiveByDestination(a: TypeId, b: TypeId, c: TypeId, d: TypeId)
    requires NoUnderscore(b.name) && NoUnderscore(d.name)
    requires MapperKey(a, b) == MapperKey(c, d)
    ensures a.name == c.name && b.name == d.name
  {
  }

  /** With '_'-free names the key depends on the ORDER of the pair:
      mapping A to B and mapping B to A use different keys. */
  lemma KeyDirected(a: TypeId, b: TypeId)
    requires NoUnderscore(a.name) && NoUnderscore(b.name)
    requires a.name != b.name
    ensures MapperKey(a, b) != MapperKey(b, a)
  {
  }

  /** Without the condition the "unique name" claim fails: the classes named
      "x" and "x_x" give the same key in both orders. */
  lemma KeyCollision()
    ensures MapperKey(TypeId("x", "x"), TypeId("x_x", "x_x"))
         == MapperKey(TypeId("x_x", "x_x"), TypeId("x", "x"))
  {
  }
}
