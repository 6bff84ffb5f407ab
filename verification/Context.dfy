/** Typed process context, ordered patches, and the two ways of persisting them. */
module Contexts {

  type Id = string

  /** `Other` stands for every typed value the engine carries without inspecting it. */
  datatype ContextValue = Text(text: string) | Ident(id: Id) | Stamp(at: int) | Other(code: nat)

  type ContextMap = map<Id, ContextValue>

  datatype PatchOp = Set(key: Id, value: ContextValue) | Remove(key: Id)

  type Patch = seq<PatchOp>

  /** White space as Unicode defines it, which is what trimming and scanning use. */
  predicate IsWhitespace(c: char) {
    var n := c as int;
    0x9 <= n <= 0xD || n == 0x20 || n == 0x85 || n == 0xA0 || n == 0x1680 || 0x2000 <= n <= 0x200A
    || n == 0x2028 || n == 0x2029 || n == 0x202F || n == 0x205F || n == 0x3000
  }

  /** What one key holds after a patch: the last operation naming the key decides. */
  function LastWrite(context: ContextMap, patch: Patch, key: Id): (value: map<Id, ContextValue>)
    ensures value.Keys <= {key}
  {
    if patch == [] then
      (if key in context then map[key := context[key]] else map[])
    else if patch[|patch| - 1].key == key then
      (match patch[|patch| - 1]
       case Set(_, v) => map[key := v]
       case Remove(_) => map[])
    else
      LastWrite(context, patch[..|patch| - 1], key)
  }

  /** The in-memory meaning of a patch: operations apply in order. */
  function Patched(context: ContextMap, patch: Patch): ContextMap {
    if patch == [] then context
    else
      var before := Patched(context, patch[..|patch| - 1]);
      match patch[|patch| - 1]
      case Set(k, v) => before[k := v]
      case Remove(k) => before - {k}
  }

  /** Later operations on the same key win, whatever happened to other keys. */
  lemma {:induction false} PatchedIsLastWrite(context: ContextMap, patch: Patch, key: Id)
    ensures (map k | k in Patched(context, patch) && k == key :: Patched(context, patch)[k])
            == LastWrite(context, patch, key)
  {
    if patch != [] {
      PatchedIsLastWrite(context, patch[..|patch| - 1], key);
    }
  }

  /** `ContextMap::apply_patcher`: insert-or-replace and remove, in place, one operation at a time. */
  method ApplyPatcher(start: ContextMap, patch: Patch) returns (context: ContextMap)
    ensures context == Patched(start, patch)
  {
    context := start;
    var i := 0;
    while i < |patch|
      invariant 0 <= i <= |patch|
      invariant context == Patched(start, patch[..i])
    {
      match patch[i] {
        case Set(k, v) =>
          if k in context {
            context := context - {k};
          }
          context := context[k := v];
        case Remove(k) =>
          context := context - {k};
      }
      assert patch[..i + 1][..i] == patch[..i];
      i := i + 1;
    }
    assert patch[..i] == patch;
  }

  /** Upserts every supplied key in whatever order the map is iterated; the
      outcome does not depend on that order. */
  method MergeContext(stored: ContextMap, supplied: ContextMap) returns (context: ContextMap)
    ensures context == stored + supplied
  {
    context := stored;
    var left := supplied.Keys;
    while left != {}
      invariant left <= supplied.Keys
      invariant context == stored + (map k | k in supplied && k !in left :: supplied[k])
      decreases left
    {
      var k :| k in left;
      context := context[k := supplied[k]];
      left := left - {k};
    }
  }

  /** Applying a patch row by row to the stored variables gives the map the handler's
      successor was chosen on, even though a single set is persisted as a one-key merge. */
  method PersistPatch(stored: ContextMap, patch: Patch) returns (context: ContextMap)
    ensures context == Patched(stored, patch)
  {
    context := stored;
    for i := 0 to |patch|
      invariant context == Patched(stored, patch[..i])
    {
      match patch[i] {
        case Set(k, v) => context := MergeContext(context, map[k := v]);
        case Remove(k) => context := context - {k};
      }
      assert patch[..i + 1][..i] == patch[..i];
    }
    assert patch[..|patch|] == patch;
  }
}
